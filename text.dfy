/**
 * The JavaScript string operations the forms and list views rely on, with
 * case and white space restricted to ASCII: `toLowerCase`, `includes`,
 * `split(",")`, `join`, `trim` and `split(/\s+/)`.
 */
module Text {
  import opened Seqs

  /** The ASCII members of JavaScript's white-space class (as used by `\s` and `trim`). */
  predicate IsSpace(c: char)
  {
    c == ' ' || c == '\t' || c == '\n' || c == '\U{000B}' || c == '\U{000C}' || c == '\r'
  }

  ghost predicate AllSpace(s: string)
  {
    forall i :: 0 <= i < |s| ==> IsSpace(s[i])
  }

  function LowerChar(c: char): char
  {
    if 'A' <= c <= 'Z' then (c as int + 32) as char else c
  }

  /** `s.toLowerCase()` on ASCII letters. */
  function Lower(s: string): (r: string)
    ensures |r| == |s|
    ensures forall i :: 0 <= i < |s| ==> r[i] == LowerChar(s[i])
  {
    seq(|s|, i requires 0 <= i < |s| => LowerChar(s[i]))
  }

  predicate StartsWith(s: string, prefix: string)
  {
    |prefix| <= |s| && s[..|prefix|] == prefix
  }

  /** `s.includes(sub)`, searched position by position from the left. */
  predicate Includes(s: string, sub: string)
  {
    StartsWith(s, sub) || (s != [] && Includes(s[1..], sub))
  }

  /** `sub` occurs in `s` starting at index `i`. */
  ghost predicate OccursAt(s: string, sub: string, i: int)
  {
    0 <= i && i + |sub| <= |s| && s[i..i + |sub|] == sub
  }

  /** The search finds `sub` exactly when it occurs somewhere in `s`. */
  lemma {:induction false} IncludesIffOccurs(s: string, sub: string)
    ensures Includes(s, sub) <==> exists i :: OccursAt(s, sub, i)
  {
    if StartsWith(s, sub) {
      assert OccursAt(s, sub, 0);
    } else if s == [] {
      assert forall i :: !OccursAt(s, sub, i);
    } else {
      IncludesIffOccurs(s[1..], sub);
      if Includes(s[1..], sub) {
        var i :| OccursAt(s[1..], sub, i);
        assert s[1..][i..i + |sub|] == s[i + 1..i + 1 + |sub|];
        assert OccursAt(s, sub, i + 1);
      }
      if exists i :: OccursAt(s, sub, i) {
        var i :| OccursAt(s, sub, i);
        assert i != 0;
        assert s[1..][i - 1..i - 1 + |sub|] == s[i..i + |sub|];
        assert OccursAt(s[1..], sub, i - 1);
      }
    }
  }

  /** Every string includes the empty string. */
  lemma IncludesEmpty(s: string)
    ensures Includes(s, "")
  {
    assert StartsWith(s, "");
  }

  /** Searching for a one-character string is membership of that character. */
  lemma {:induction false} IncludesChar(s: string, c: char)
    ensures Includes(s, [c]) <==> c in s
  {
    if s != [] {
      IncludesChar(s[1..], c);
      assert s == [s[0]] + s[1..];
    }
  }

  /** `s.split(sep)` for a one-character separator; `"".split(sep)` is `[""]`. */
  function Split(s: string, sep: char): (r: seq<string>)
    ensures |r| >= 1
    ensures forall k :: 0 <= k < |r| ==> sep !in r[k]
  {
    if s == [] then [""]
    else
      var rest := Split(s[1..], sep);
      if s[0] == sep then [""] + rest
      else [[s[0]] + rest[0]] + rest[1..]
  }

  /** `parts.join(sep)`. */
  function Join(parts: seq<string>, sep: string): string
  {
    if |parts| == 0 then ""
    else if |parts| == 1 then parts[0]
    else parts[0] + sep + Join(parts[1..], sep)
  }

  /** Splitting yields one piece more than there are separators. */
  lemma {:induction false} SplitCount(s: string, sep: char)
    ensures |Split(s, sep)| == multiset(s)[sep] + 1
  {
    if s != [] {
      SplitCount(s[1..], sep);
      assert s == [s[0]] + s[1..];
    }
  }

  /** Joining the pieces with the separator gives back the split string. */
  lemma {:induction false} JoinSplit(s: string, sep: char)
    ensures Join(Split(s, sep), [sep]) == s
  {
    if s != [] {
      var rest := Split(s[1..], sep);
      JoinSplit(s[1..], sep);
      if s[0] == sep {
        assert Split(s, sep) == [""] + rest;
        assert ([""] + rest)[1..] == rest;
      } else {
        var r := Split(s, sep);
        assert r == [[s[0]] + rest[0]] + rest[1..];
        if |rest| == 1 {
          assert [s[0]] + rest[0] == s;
        } else {
          assert r[1..] == rest[1..];
          assert Join(rest, [sep]) == rest[0] + [sep] + Join(rest[1..], [sep]);
          assert s == [s[0]] + s[1..];
        }
      }
    }
  }

  /** A string without the separator is a single piece. */
  lemma {:induction false} SplitWithoutSep(s: string, sep: char)
    requires sep !in s
    ensures Split(s, sep) == [s]
  {
    if s != [] {
      SplitWithoutSep(s[1..], sep);
      assert [s[0]] + s[1..] == s;
    }
  }

  /** A separator-free head splits off as one piece. */
  lemma {:induction false} SplitAfterPiece(a: string, sep: char, b: string)
    requires sep !in a
    ensures Split(a + [sep] + b, sep) == [a] + Split(b, sep)
  {
    if a == [] {
      assert a + [sep] + b == [sep] + b;
      assert ([sep] + b)[1..] == b;
    } else {
      assert (a + [sep] + b)[1..] == a[1..] + [sep] + b;
      SplitAfterPiece(a[1..], sep, b);
      assert [a[0]] + a[1..] == a;
    }
  }

  /** `s.trimStart()`: drops the leading white space and nothing else. */
  function TrimLeft(s: string): (r: string)
    ensures |r| <= |s| && r == s[|s| - |r|..]
    ensures AllSpace(s[..|s| - |r|])
    ensures r == [] || !IsSpace(r[0])
  {
    if s != [] && IsSpace(s[0]) then TrimLeft(s[1..]) else s
  }

  /** `s.trimEnd()`: drops the trailing white space and nothing else. */
  function TrimRight(s: string): (r: string)
    ensures |r| <= |s| && r == s[..|r|]
    ensures AllSpace(s[|r|..])
    ensures r == [] || !IsSpace(r[|r| - 1])
  {
    if s != [] && IsSpace(s[|s| - 1]) then TrimRight(s[..|s| - 1]) else s
  }

  /** No white space at either end. */
  predicate IsTrimmed(s: string)
  {
    s == [] || (!IsSpace(s[0]) && !IsSpace(s[|s| - 1]))
  }

  /** `s.trim()`. */
  function Trim(s: string): (r: string)
    ensures IsTrimmed(r)
    ensures |r| <= |s|
    ensures IsTrimmed(s) ==> r == s
    ensures forall c :: c in r ==> c in s
  {
    TrimRight(TrimLeft(s))
  }

  /** A space put in front of a trimmed string is trimmed away again. */
  lemma TrimAfterSpace(x: string)
    requires IsTrimmed(x)
    ensures Trim([' '] + x) == x
  {
    assert ([' '] + x)[1..] == x;
  }

  /**
   * `s.split(/\s+/)`: pieces between maximal runs of white space; a leading
   * (trailing) run gives an empty first (last) piece.
   */
  function SplitOnSpaceRuns(s: string): (r: seq<string>)
    ensures |r| >= 1
    ensures r[0] == "" <==> s == [] || IsSpace(s[0])
  {
    if s == [] then [""]
    else
      var rest := SplitOnSpaceRuns(s[1..]);
      if !IsSpace(s[0]) then [[s[0]] + rest[0]] + rest[1..]
      else if |s| > 1 && IsSpace(s[1]) then rest
      else [""] + rest
  }

  /**
   * Reference count of the maximal runs of non-white characters: a scan that
   * counts each non-white character whose predecessor is white or absent
   * (`inRun` says whether the character before `s` was a non-white one).
   */
  function RunCount(s: string, inRun: bool): nat
  {
    if s == [] then 0
    else if IsSpace(s[0]) then RunCount(s[1..], false)
    else (if inRun then 0 else 1) + RunCount(s[1..], true)
  }

  predicate NonEmpty(piece: string) { piece != "" }

  /** The non-empty pieces of `split(/\s+/)` are exactly the runs of non-white characters. */
  lemma {:induction false} SplitOnSpaceRunsCount(s: string)
    ensures |Filter(NonEmpty, SplitOnSpaceRuns(s))| == RunCount(s, false)
    ensures |Filter(NonEmpty, SplitOnSpaceRuns(s)[1..])| == RunCount(s, true)
  {
    if s != [] {
      var rest := SplitOnSpaceRuns(s[1..]);
      SplitOnSpaceRunsCount(s[1..]);
      var r := SplitOnSpaceRuns(s);
      if !IsSpace(s[0]) {
        assert r == [[s[0]] + rest[0]] + rest[1..];
        assert r[1..] == rest[1..];
        assert Filter(NonEmpty, r) == [r[0]] + Filter(NonEmpty, r[1..]);
      } else if |s| > 1 && IsSpace(s[1]) {
        assert r == rest;
        assert RunCount(s[1..], true) == RunCount(s[2..], false) == RunCount(s[1..], false);
        assert rest == [rest[0]] + rest[1..];
        assert Filter(NonEmpty, rest) == Filter(NonEmpty, rest[1..]);
      } else {
        assert r == [""] + rest;
        assert r[1..] == rest;
        assert Filter(NonEmpty, r) == Filter(NonEmpty, rest);
        if |s| > 1 {
          assert rest[0] != "";
          assert rest == [rest[0]] + rest[1..];
        }
      }
    }
  }

  /** Leading white space does not change the number of runs. */
  lemma {:induction false} RunCountTrimLeft(s: string)
    ensures RunCount(TrimLeft(s), false) == RunCount(s, false)
  {
    if s != [] && IsSpace(s[0]) {
      RunCountTrimLeft(s[1..]);
    }
  }

  /** A trailing white-space character does not change the number of runs. */
  lemma {:induction false} RunCountDropLastSpace(s: string, inRun: bool)
    requires s != [] && IsSpace(s[|s| - 1])
    ensures RunCount(s[..|s| - 1], inRun) == RunCount(s, inRun)
  {
    if |s| > 1 {
      assert s[..|s| - 1][1..] == s[1..][..|s| - 2];
      RunCountDropLastSpace(s[1..], !IsSpace(s[0]));
    }
  }

  lemma {:induction false} RunCountTrimRight(s: string)
    ensures RunCount(TrimRight(s), false) == RunCount(s, false)
  {
    if s != [] && IsSpace(s[|s| - 1]) {
      RunCountTrimRight(s[..|s| - 1]);
      RunCountDropLastSpace(s, false);
    }
  }

  /** There are no runs exactly when the string is all white space. */
  lemma {:induction false} RunCountZero(s: string)
    ensures RunCount(s, false) == 0 <==> AllSpace(s)
  {
    if s != [] {
      RunCountZero(s[1..]);
      if IsSpace(s[0]) {
        assert AllSpace(s) <==> AllSpace(s[1..]) by {
          assert forall i :: 1 <= i < |s| ==> s[i] == s[1..][i - 1];
        }
      }
    }
  }
}
