/**
 * The string operations of Apache commons-lang `StringUtils` and of
 * `java.lang.String` that the plugin relies on, on `seq<char>`.
 * A Java `null` string is `None`.
 */
module JavaStrings {
  import opened Wrappers

  /** A Java `String` reference; `None` is `null`. */
  type JString = Option<string>

  /** `Character.isWhitespace`: the Unicode space separators except the
      no-break ones, the line and paragraph separators, and the ASCII
      controls TAB, LF, VT, FF, CR, FS, GS, RS and US. */
  predicate IsWhitespace(c: char)
  {
    || c == ' ' || c == '\t' || c == '\n' || c == '\U{000B}' || c == '\U{000C}' || c == '\r'
    || ('\U{001C}' <= c <= '\U{001F}')
    || c == '\U{1680}'
    || ('\U{2000}' <= c <= '\U{2006}')
    || ('\U{2008}' <= c <= '\U{200A}')
    || c == '\U{2028}' || c == '\U{2029}' || c == '\U{205F}' || c == '\U{3000}'
  }

  /** `StringUtils.isBlank`: null, empty, or whitespace only. */
  predicate IsBlank(s: JString)
  {
    s.None? || forall i | 0 <= i < |s.value| :: IsWhitespace(s.value[i])
  }

  predicate StartsWith(s: string, prefix: string)
  {
    |prefix| <= |s| && s[..|prefix|] == prefix
  }

  predicate EndsWith(s: string, suffix: string)
  {
    |suffix| <= |s| && s[|s| - |suffix|..] == suffix
  }

  /** Java string concatenation of a possibly-null string: `null` prints as "null". */
  function ConcatForm(s: JString): string
  {
    if s.None? then "null" else s.value
  }

  /** `StringUtils.removeStart`: null, empty and non-matching input is returned as is. */
  function RemoveStart(s: JString, remove: string): JString
  {
    if s.None? || s.value == [] || remove == [] then s
    else if StartsWith(s.value, remove) then Some(s.value[|remove|..])
    else s
  }

  /** `StringUtils.removeEnd`: null, empty and non-matching input is returned as is. */
  function RemoveEnd(s: JString, remove: string): JString
  {
    if s.None? || s.value == [] || remove == [] then s
    else if EndsWith(s.value, remove) then Some(s.value[..|s.value| - |remove|])
    else s
  }

  // ---------------------------------------------------------------------------
  // String.trim and StringUtils.trimToEmpty

  /** `String.trim` drops the characters at or below U+0020 from both ends. */
  predicate IsTrimmed(c: char)
  {
    c <= ' '
  }

  function TrimStart(s: string): (r: string)
    ensures |r| <= |s| && r == s[|s| - |r|..]
    ensures r == [] || !IsTrimmed(r[0])
    ensures forall i | 0 <= i < |s| - |r| :: IsTrimmed(s[i])
  {
    if s != [] && IsTrimmed(s[0]) then
      var r := TrimStart(s[1..]);
      assert s[1..][|s[1..]| - |r|..] == s[|s| - |r|..];
      assert forall i | 1 <= i < |s| :: s[i] == s[1..][i - 1];
      r
    else s
  }

  function TrimEnd(s: string): (r: string)
    ensures |r| <= |s| && r == s[..|r|]
    ensures r == [] || !IsTrimmed(r[|r| - 1])
    ensures forall i | |r| <= i < |s| :: IsTrimmed(s[i])
  {
    if s != [] && IsTrimmed(s[|s| - 1]) then TrimEnd(s[..|s| - 1]) else s
  }

  /** `StringUtils.trimToEmpty`: null becomes "", anything else is trimmed. */
  function TrimToEmpty(s: JString): string
  {
    if s.None? then "" else TrimEnd(TrimStart(s.value))
  }

  /** Trimming yields "" exactly for null and for strings made only of
      characters at or below U+0020. */
  lemma TrimToEmptyIsEmpty(s: JString)
    ensures TrimToEmpty(s) == [] <==> s.None? || forall i | 0 <= i < |s.value| :: IsTrimmed(s.value[i])
  {
  }

  // ---------------------------------------------------------------------------
  // StringUtils.split(String, String) and StringUtils.split(String, char)

  /** The longest prefix of `s` holding no separator. */
  function Token(s: string, seps: set<char>): (t: string)
    ensures |t| <= |s| && t == s[..|t|]
    ensures forall i | 0 <= i < |t| :: t[i] !in seps
    ensures |t| == |s| || s[|t|] in seps
  {
    if s == [] || s[0] in seps then [] else [s[0]] + Token(s[1..], seps)
  }

  /** `StringUtils.split` of a non-null string: the maximal runs of
      non-separator characters, in order; adjacent separators yield no
      empty token. */
  function Split(s: string, seps: set<char>): seq<string>
    decreases |s|
  {
    if s == [] then []
    else if s[0] in seps then Split(s[1..], seps)
    else
      var t := Token(s, seps);
      [t] + Split(s[|t|..], seps)
  }

  /** No token is empty and no token holds a separator. */
  predicate ValidTokens(parts: seq<string>, seps: set<char>)
  {
    forall k | 0 <= k < |parts| :: parts[k] != [] && forall i | 0 <= i < |parts[k]| :: parts[k][i] !in seps
  }

  lemma {:induction false} SplitTokensValid(s: string, seps: set<char>)
    ensures ValidTokens(Split(s, seps), seps)
    decreases |s|
  {
    if s == [] {
    } else if s[0] in seps {
      SplitTokensValid(s[1..], seps);
    } else {
      var t := Token(s, seps);
      SplitTokensValid(s[|t|..], seps);
    }
  }

  /** A string made only of separators splits into nothing. */
  lemma {:induction false} SplitOfSeparatorsIsEmpty(s: string, seps: set<char>)
    requires forall i | 0 <= i < |s| :: s[i] in seps
    ensures Split(s, seps) == []
    decreases |s|
  {
    if s != [] {
      SplitOfSeparatorsIsEmpty(s[1..], seps);
    }
  }

  /** Tokens glued back together with one separator between neighbours. */
  function Join(parts: seq<string>, sep: char): string
  {
    if parts == [] then []
    else if |parts| == 1 then parts[0]
    else parts[0] + [sep] + Join(parts[1..], sep)
  }

  lemma {:induction false} TokenOfPrefix(t: string, rest: string, seps: set<char>)
    requires forall i | 0 <= i < |t| :: t[i] !in seps
    requires rest == [] || rest[0] in seps
    ensures Token(t + rest, seps) == t
  {
    if t != [] {
      assert (t + rest)[1..] == t[1..] + rest;
      TokenOfPrefix(t[1..], rest, seps);
    }
  }

  /** Round trip: splitting the join of valid tokens on a separator set that
      holds the joining character gives the tokens back. */
  lemma {:induction false} SplitJoin(parts: seq<string>, sep: char, seps: set<char>)
    requires sep in seps
    requires ValidTokens(parts, seps)
    ensures Split(Join(parts, sep), seps) == parts
  {
    if parts == [] {
    } else if |parts| == 1 {
      var p := parts[0];
      TokenOfPrefix(p, [], seps);
      assert p + [] == p;
      assert p[|p|..] == [];
    } else {
      var p := parts[0];
      var rest := Join(parts[1..], sep);
      var s := p + [sep] + rest;
      assert s == p + ([sep] + rest);
      TokenOfPrefix(p, [sep] + rest, seps);
      assert s[|p|..] == [sep] + rest;
      assert ([sep] + rest)[1..] == rest;
      assert ValidTokens(parts[1..], seps) by {
        forall k | 0 <= k < |parts[1..]| ensures parts[1..][k] == parts[k + 1] { }
      }
      SplitJoin(parts[1..], sep, seps);
      assert parts == [p] + parts[1..];
    }
  }

  // ---------------------------------------------------------------------------
  // StringUtils.replace(String, String, String)

  predicate OccursAt(s: string, sub: string, i: int)
  {
    0 <= i && i + |sub| <= |s| && s[i..i + |sub|] == sub
  }

  predicate Contains(s: string, sub: string)
  {
    exists i | 0 <= i <= |s| - |sub| :: OccursAt(s, sub, i)
  }

  /** `StringUtils.replace` with a non-empty search string: every
      non-overlapping occurrence, found left to right, is replaced, and the
      scan resumes after the replaced occurrence. */
  function Replace(s: string, search: string, rep: string): string
    requires search != []
    decreases |s|
  {
    if |s| < |search| then s
    else if s[..|search|] == search then rep + Replace(s[|search|..], search, rep)
    else [s[0]] + Replace(s[1..], search, rep)
  }

  /** Text without an occurrence of the search string is returned unchanged. */
  lemma {:induction false} ReplaceAbsent(s: string, search: string, rep: string)
    requires search != []
    requires !Contains(s, search)
    ensures Replace(s, search, rep) == s
    decreases |s|
  {
    if |s| >= |search| {
      assert !OccursAt(s, search, 0);
      assert !Contains(s[1..], search) by {
        forall i | OccursAt(s[1..], search, i) ensures OccursAt(s, search, i + 1) {
          assert s[1..][i..i + |search|] == s[i + 1..i + 1 + |search|];
        }
      }
      ReplaceAbsent(s[1..], search, rep);
      assert s == [s[0]] + s[1..];
    }
  }

  /** Replacing a single character by text that does not hold it removes
      every occurrence of that character. */
  lemma {:induction false} ReplaceRemovesChar(s: string, c: char, rep: string)
    requires c !in rep
    ensures c !in Replace(s, [c], rep)
    decreases |s|
  {
    if |s| >= 1 {
      if s[..1] == [c] {
        ReplaceRemovesChar(s[1..], c, rep);
      } else {
        assert s[0] != c by { assert s[..1] == [s[0]]; }
        ReplaceRemovesChar(s[1..], c, rep);
      }
    }
  }

  /** Replacing by text no longer than the search string never lengthens. */
  lemma {:induction false} ReplaceShrinks(s: string, search: string, rep: string)
    requires search != [] && |rep| <= |search|
    ensures |Replace(s, search, rep)| <= |s|
    decreases |s|
  {
    if |s| >= |search| {
      if s[..|search|] == search {
        ReplaceShrinks(s[|search|..], search, rep);
      } else {
        ReplaceShrinks(s[1..], search, rep);
      }
    }
  }

  /** Replacing one character by another is a pointwise map: the length is
      kept, each occurrence of `c` becomes `d` and every other character
      stays where it was. */
  lemma {:induction false} ReplaceCharPointwise(s: string, c: char, d: char)
    ensures |Replace(s, [c], [d])| == |s|
    ensures forall i | 0 <= i < |s| ::
      Replace(s, [c], [d])[i] == (if s[i] == c then d else s[i])
    decreases |s|
  {
    if |s| >= 1 {
      assert s[..1] == [s[0]];
      ReplaceCharPointwise(s[1..], c, d);
      var head := if s[0] == c then d else s[0];
      assert Replace(s, [c], [d]) == [head] + Replace(s[1..], [c], [d]) by {
        if s[0] == c {
          assert s[1..] == s[|[c]|..];
        }
      }
      forall i | 0 <= i < |s|
        ensures Replace(s, [c], [d])[i] == (if s[i] == c then d else s[i])
      {
        if i > 0 {
          assert s[i] == s[1..][i - 1];
        }
      }
    }
  }

  /** A prefix that never holds the first character of the search string is
      copied unchanged and the scan goes on after it. */
  lemma {:induction false} ReplaceSkipsPrefix(a: string, b: string, search: string, rep: string)
    requires search != [] && search[0] !in a
    ensures Replace(a + b, search, rep) == a + Replace(b, search, rep)
    decreases |a|
  {
    if a != [] {
      var s := a + b;
      assert s[0] == a[0];
      if |s| >= |search| {
        assert s[..|search|][0] == a[0];
        assert s[1..] == a[1..] + b;
        ReplaceSkipsPrefix(a[1..], b, search, rep);
        assert a == [a[0]] + a[1..];
      } else {
        assert |b| < |search|;
      }
    } else {
      assert a + b == b;
    }
  }

  /** Lines glued back together with a line-end string between neighbours. */
  function JoinLines(lines: seq<string>, eol: string): string
  {
    if lines == [] then []
    else if |lines| == 1 then lines[0]
    else lines[0] + eol + JoinLines(lines[1..], eol)
  }

  /** A character in neither the lines nor the line end is not in their join. */
  lemma {:induction false} JoinLinesAvoids(lines: seq<string>, eol: string, c: char)
    requires c !in eol
    requires forall k | 0 <= k < |lines| :: c !in lines[k]
    ensures c !in JoinLines(lines, eol)
    decreases |lines|
  {
    if |lines| > 1 {
      JoinLinesAvoids(lines[1..], eol, c);
    }
  }

  /** Replacing CRLF by LF in lines joined with CRLF gives the same lines
      joined with LF, as long as no line holds a carriage return. */
  lemma {:induction false} ReplaceCrlfJoin(lines: seq<string>)
    requires forall k | 0 <= k < |lines| :: '\r' !in lines[k]
    ensures Replace(JoinLines(lines, "\r\n"), "\r\n", "\n") == JoinLines(lines, "\n")
    decreases |lines|
  {
    if |lines| == 1 {
      ReplaceSkipsPrefix(lines[0], [], "\r\n", "\n");
      assert lines[0] + [] == lines[0];
    } else if |lines| > 1 {
      var rest := JoinLines(lines[1..], "\r\n");
      ReplaceSkipsPrefix(lines[0], "\r\n" + rest, "\r\n", "\n");
      assert lines[0] + "\r\n" + rest == lines[0] + ("\r\n" + rest);
      var t := "\r\n" + rest;
      assert t[..2] == "\r\n" && t[2..] == rest;
      ReplaceCrlfJoin(lines[1..]);
    }
  }

  // ---------------------------------------------------------------------------
  // Decimal rendering of Java int and long values (`n + ""`)

  function DigitChar(d: nat): char
    requires d < 10
  {
    "0123456789"[d]
  }

  function NatToString(n: nat): string
    decreases n
  {
    if n < 10 then [DigitChar(n)] else NatToString(n / 10) + [DigitChar(n % 10)]
  }

  function IntToString(n: int): string
  {
    if n < 0 then "-" + NatToString(-n) else NatToString(n)
  }

  /** Decimal renderings are non-empty and hold no '/' (so they stay one
      path segment of a URL). */
  lemma {:induction false} NatToStringIsSegment(n: nat)
    ensures NatToString(n) != [] && '/' !in NatToString(n)
    decreases n
  {
    if n >= 10 {
      NatToStringIsSegment(n / 10);
    }
  }

  lemma IntToStringIsSegment(n: int)
    ensures IntToString(n) != [] && '/' !in IntToString(n)
  {
    if n < 0 {
      NatToStringIsSegment(-n);
    } else {
      NatToStringIsSegment(n);
    }
  }
}
