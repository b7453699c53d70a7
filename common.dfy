/** Shared vocabulary of the model: optional values, results, decoded JSON
    values, and the handful of Python string and slicing operations the
    court-records core relies on (str.strip, str.split, str.join, slicing,
    str(int), str.replace, str.lower, str.capitalize, re.sub over a
    character class). */
module Common {

  datatype Option<+T> = None | Some(value: T)

  datatype Result<+T, +E> = Ok(value: T) | Err(error: E)

  /** A value as Python holds it after json.loads: the request bodies,
      tool arguments and tool results exchanged by the MCP layer. */
  datatype Json =
    | JNull
    | JBool(b: bool)
    | JInt(i: int)
    | JStr(s: string)
    | JArr(items: seq<Json>)
    | JObj(fields: map<string, Json>)

  /** Python truthiness of a decoded JSON value (`if x:` / `x or y`). */
  predicate Truthy(j: Json)
  {
    match j
    case JNull => false
    case JBool(b) => b
    case JInt(i) => i != 0
    case JStr(s) => s != ""
    case JArr(items) => items != []
    case JObj(fields) => fields != map[]
  }

  /** `d.get(key)` on a dict, with None for a missing key. */
  function Get(fields: map<string, Json>, key: string): (r: Option<Json>)
    ensures r.Some? <==> key in fields
    ensures r.Some? ==> r.value == fields[key]
  {
    if key in fields then Some(fields[key]) else None
  }

  // ---------------------------------------------------------------------
  // Characters
  // ---------------------------------------------------------------------

  /** The characters Python's str.isspace() accepts; str.strip() and
      str.split() without arguments use exactly these. */
  predicate IsSpace(c: char)
  {
    var n := c as int;
    (9 <= n <= 13) || (28 <= n <= 32) || n == 0x85 || n == 0xA0 || n == 0x1680
    || (0x2000 <= n <= 0x200A) || n == 0x2028 || n == 0x2029 || n == 0x202F
    || n == 0x205F || n == 0x3000
  }

  predicate NotSpace(c: char)
  {
    !IsSpace(c)
  }

  // ---------------------------------------------------------------------
  // Stripping
  // ---------------------------------------------------------------------

  /** Drops the longest prefix whose characters satisfy `p`. */
  function TrimLeft(s: string, p: char -> bool): (r: string)
    ensures |r| <= |s| && r == s[|s| - |r|..]
  {
    if s != [] && p(s[0]) then TrimLeft(s[1..], p) else s
  }

  /** Drops the longest suffix whose characters satisfy `p`. */
  function TrimRight(s: string, p: char -> bool): (r: string)
    ensures |r| <= |s| && r == s[..|r|]
  {
    if s != [] && p(s[|s| - 1]) then TrimRight(s[..|s| - 1], p) else s
  }

  /** What TrimLeft drops satisfies `p`, and what it keeps does not start
      with such a character. */
  lemma {:induction false} TrimLeftShape(s: string, p: char -> bool)
    ensures var r := TrimLeft(s, p);
      && (r != [] ==> !p(r[0]))
      && (forall i :: 0 <= i < |s| - |r| ==> p(s[i]))
  {
    if s != [] && p(s[0]) {
      TrimLeftShape(s[1..], p);
      var r := TrimLeft(s, p);
      forall i | 1 <= i < |s| - |r| ensures p(s[i]) {
        assert s[i] == s[1..][i - 1];
      }
    }
  }

  /** What TrimRight drops satisfies `p`, and what it keeps does not end
      with such a character. */
  lemma {:induction false} TrimRightShape(s: string, p: char -> bool)
    ensures var r := TrimRight(s, p);
      && (r != [] ==> !p(r[|r| - 1]))
      && (forall i :: |r| <= i < |s| ==> p(s[i]))
  {
    if s != [] && p(s[|s| - 1]) {
      TrimRightShape(s[..|s| - 1], p);
      var r := TrimRight(s, p);
      forall i | |r| <= i < |s| - 1 ensures p(s[i]) {
        assert s[i] == s[..|s| - 1][i];
      }
    }
  }

  /** `s.strip(chars)` for the character class `p`. */
  function StripBy(s: string, p: char -> bool): string
  {
    TrimRight(TrimLeft(s, p), p)
  }

  /** `s.strip()`. */
  function Strip(s: string): string
  {
    StripBy(s, IsSpace)
  }

  /** What strip keeps is a run of the original's characters. */
  lemma StripByPiece(s: string, p: char -> bool)
    ensures var r := StripBy(s, p);
      && |s| - |TrimLeft(s, p)| + |r| <= |s|
      && r == s[|s| - |TrimLeft(s, p)|..|s| - |TrimLeft(s, p)| + |r|]
  {
    var l := TrimLeft(s, p);
    var r := TrimRight(l, p);
    SliceOfSuffix(s, l, r);
  }

  /** Where the run that strip keeps lies in the original. */
  lemma StripBySlice(s: string, p: char -> bool) returns (a: nat, b: nat)
    ensures a <= b <= |s| && StripBy(s, p) == s[a..b]
  {
    StripByPiece(s, p);
    a := |s| - |TrimLeft(s, p)|;
    b := a + |StripBy(s, p)|;
  }

  lemma SliceOfSuffix(s: string, l: string, r: string)
    requires |l| <= |s| && l == s[|s| - |l|..]
    requires |r| <= |l| && r == l[..|r|]
    ensures r == s[|s| - |l|..|s| - |l| + |r|]
  {
    var i := |s| - |l|;
    forall k | 0 <= k < |r| ensures r[k] == s[i + k] {
      assert r[k] == l[k];
    }
  }

  /** What strip keeps has no stripped character at either end, and it is
      empty exactly when every character of the input is stripped. */
  lemma StripByShape(s: string, p: char -> bool)
    ensures var r := StripBy(s, p);
      && (r != [] ==> !p(r[0]) && !p(r[|r| - 1]))
      && (r == [] <==> forall i :: 0 <= i < |s| ==> p(s[i]))
  {
    var l := TrimLeft(s, p);
    var r := TrimRight(l, p);
    TrimLeftShape(s, p);
    TrimRightShape(l, p);
    TrimmedEnds(s, l, r, p);
  }

  /** Stripping a run of whitespace leaves nothing. */
  lemma BlankStripsToEmpty(s: string)
    requires forall i :: 0 <= i < |s| ==> IsSpace(s[i])
    ensures Strip(s) == ""
  {
    StripByShape(s, IsSpace);
  }

  lemma TrimmedEnds(s: string, l: string, r: string, p: char -> bool)
    requires |l| <= |s| && l == s[|s| - |l|..]
    requires |r| <= |l| && r == l[..|r|]
    requires (l != [] ==> !p(l[0])) && forall i :: 0 <= i < |s| - |l| ==> p(s[i])
    requires (r != [] ==> !p(r[|r| - 1])) && forall i :: |r| <= i < |l| ==> p(l[i])
    ensures r != [] ==> !p(r[0]) && !p(r[|r| - 1])
    ensures r == [] <==> forall i :: 0 <= i < |s| ==> p(s[i])
  {
    if r != [] {
      assert r[0] == l[0];
    }
  }

  /** What strip keeps is a piece of the original. */
  lemma StripSubstring(w: string, p: char -> bool)
    ensures forall c :: c in StripBy(w, p) ==> c in w
  {
    StripByPiece(w, p);
    var a := |w| - |TrimLeft(w, p)|;
    SliceMembers(w, a, a + |StripBy(w, p)|);
  }

  /** Every element of a slice is an element of the sequence. */
  lemma SliceMembers<T>(w: seq<T>, a: nat, b: nat)
    requires a <= b <= |w|
    ensures forall c :: c in w[a..b] ==> c in w
  {
    forall c | c in w[a..b] ensures c in w {
      var i :| 0 <= i < b - a && w[a..b][i] == c;
      assert w[a + i] == c;
    }
  }

  /** Stripping twice strips nothing more, and never lengthens. */
  lemma StripByIdempotent(s: string, p: char -> bool)
    ensures StripBy(StripBy(s, p), p) == StripBy(s, p)
    ensures |StripBy(s, p)| <= |s|
  {
    StripByShape(s, p);
  }

  /** `[s.strip() for s in ws if s.strip()]`: the stripped, non-blank items. */
  function KeepStripped(ws: seq<string>): (r: seq<string>)
    ensures |r| <= |ws|
  {
    if ws == [] then []
    else (if Strip(ws[0]) != "" then [Strip(ws[0])] else []) + KeepStripped(ws[1..])
  }

  /** Every kept item is non-blank and is some input item stripped. */
  lemma {:induction false} KeepStrippedItems(ws: seq<string>)
    ensures forall c :: c in KeepStripped(ws) ==> c != "" && exists w :: w in ws && c == Strip(w)
  {
    if ws != [] {
      KeepStrippedItems(ws[1..]);
      assert ws[0] in ws;
      forall c | c in KeepStripped(ws[1..]) ensures exists w :: w in ws && c == Strip(w) {
        var w :| w in ws[1..] && c == Strip(w);
        assert w in ws;
      }
    }
  }

  // ---------------------------------------------------------------------
  // Prefixes and substrings
  // ---------------------------------------------------------------------

  predicate StartsWith(s: string, prefix: string)
  {
    |prefix| <= |s| && s[..|prefix|] == prefix
  }

  /** `sub in s` for strings. */
  predicate Contains(s: string, sub: string)
    decreases |s|
  {
    StartsWith(s, sub) || (s != [] && Contains(s[1..], sub))
  }

  /** `s.replace(old, new)`: every non-overlapping occurrence, scanning left
      to right. */
  function ReplaceAll(s: string, pat: string, rep: string): string
    requires pat != []
    decreases |s|
  {
    if |s| < |pat| then s
    else if StartsWith(s, pat) then rep + ReplaceAll(s[|pat|..], pat, rep)
    else [s[0]] + ReplaceAll(s[1..], pat, rep)
  }

  /** A string free of the pattern is left alone by `replace`. */
  lemma {:induction false} ReplaceAllAbsent(s: string, pat: string, rep: string)
    requires pat != [] && !Contains(s, pat)
    ensures ReplaceAll(s, pat, rep) == s
    decreases |s|
  {
    if |s| >= |pat| {
      assert !StartsWith(s, pat);
      ReplaceAllAbsent(s[1..], pat, rep);
    }
  }

  // ---------------------------------------------------------------------
  // Splitting and joining
  // ---------------------------------------------------------------------

  /** `sep.join(parts)`. */
  function Join(parts: seq<string>, sep: string): string
  {
    if |parts| == 0 then ""
    else if |parts| == 1 then parts[0]
    else parts[0] + sep + Join(parts[1..], sep)
  }

  /** `s.split(sep)` for a one-character separator: always at least one
      piece, and no piece contains the separator. */
  function SplitOn(s: string, sep: char): (r: seq<string>)
    ensures |r| >= 1
    ensures forall i :: 0 <= i < |r| ==> sep !in r[i]
  {
    if s == [] then [""]
    else
      var rest := SplitOn(s[1..], sep);
      if s[0] == sep then [""] + rest
      else [[s[0]] + rest[0]] + rest[1..]
  }

  /** Splitting on a character and joining the pieces back with it gives
      the original string. */
  lemma {:induction false} JoinSplitOn(s: string, sep: char)
    ensures Join(SplitOn(s, sep), [sep]) == s
  {
    if s != [] {
      var rest := SplitOn(s[1..], sep);
      JoinSplitOn(s[1..], sep);
      if s[0] == sep {
        assert SplitOn(s, sep) == [""] + rest;
        assert Join([""] + rest, [sep]) == "" + [sep] + Join(rest, [sep]);
      } else {
        var parts := [[s[0]] + rest[0]] + rest[1..];
        assert SplitOn(s, sep) == parts;
        if |rest| == 1 {
          assert Join(parts, [sep]) == [s[0]] + rest[0];
        } else {
          assert parts[1..] == rest[1..];
          assert Join(rest, [sep]) == rest[0] + [sep] + Join(rest[1..], [sep]);
          assert Join(parts, [sep]) == [s[0]] + rest[0] + [sep] + Join(rest[1..], [sep]);
        }
      }
    }
  }

  /** The separator-free strings are exactly the ones split into a single
      piece. */
  lemma {:induction false} SplitOnSingle(s: string, sep: char)
    ensures |SplitOn(s, sep)| == 1 <==> sep !in s
  {
    if s != [] {
      SplitOnSingle(s[1..], sep);
      assert s == [s[0]] + s[1..];
    }
  }

  /** A separator-free field followed by the separator is the first piece. */
  lemma {:induction false} SplitOnField(a: string, sep: char, b: string)
    requires sep !in a
    ensures SplitOn(a + [sep] + b, sep) == [a] + SplitOn(b, sep)
  {
    if a == [] {
      assert a + [sep] + b == [sep] + b;
      assert ([sep] + b)[1..] == b;
    } else {
      var s := a + [sep] + b;
      assert s[1..] == a[1..] + [sep] + b;
      SplitOnField(a[1..], sep, b);
      assert [a[0]] + a[1..] == a;
    }
  }

  /** A separator-free string is split into itself. */
  lemma {:induction false} SplitOnNone(a: string, sep: char)
    requires sep !in a
    ensures SplitOn(a, sep) == [a]
  {
    if a != [] {
      SplitOnNone(a[1..], sep);
      assert [a[0]] + a[1..] == a;
    }
  }

  // ---------------------------------------------------------------------
  // Maximal runs of a character class
  // ---------------------------------------------------------------------

  /** The longest prefix of `s` made of characters satisfying `keep`. */
  function TakeKept(s: string, keep: char -> bool): (r: string)
    ensures |r| <= |s| && r == s[..|r|]
  {
    if s != [] && keep(s[0]) then [s[0]] + TakeKept(s[1..], keep) else []
  }

  /** The prefix is all kept, and the character after it is not. */
  lemma {:induction false} TakeKeptShape(s: string, keep: char -> bool)
    ensures var r := TakeKept(s, keep);
      && (forall i :: 0 <= i < |r| ==> keep(r[i]))
      && (|r| < |s| ==> !keep(s[|r|]))
  {
    if s != [] && keep(s[0]) {
      TakeKeptShape(s[1..], keep);
      var r := TakeKept(s, keep);
      forall i | 0 <= i < |r| ensures keep(r[i]) {
        if i > 0 {
          assert r[i] == TakeKept(s[1..], keep)[i - 1];
        }
      }
    }
  }

  /** `s` without its longest prefix of characters failing `keep`. */
  function SkipUnkept(s: string, keep: char -> bool): (r: string)
    ensures |r| <= |s| && r == s[|s| - |r|..]
    ensures r != [] ==> keep(r[0])
  {
    if s != [] && !keep(s[0]) then
      var r := SkipUnkept(s[1..], keep);
      assert s[1..][|s| - 1 - |r|..] == s[|s| - |r|..];
      r
    else s
  }

  /** The maximal runs of characters satisfying `keep`, in order. With
      `keep == NotSpace` this is Python's `s.split()`. */
  function Runs(s: string, keep: char -> bool): (r: seq<string>)
    decreases |s|
  {
    if s == [] then []
    else if keep(s[0]) then
      var w := TakeKept(s, keep);
      [w] + Runs(s[|w|..], keep)
    else Runs(SkipUnkept(s, keep), keep)
  }

  /** Every run is non-empty and made of kept characters only. */
  lemma {:induction false} RunsShape(s: string, keep: char -> bool)
    ensures forall i :: 0 <= i < |Runs(s, keep)| ==> Runs(s, keep)[i] != []
    ensures forall i, k :: 0 <= i < |Runs(s, keep)| && 0 <= k < |Runs(s, keep)[i]| ==> keep(Runs(s, keep)[i][k])
    decreases |s|
  {
    if s != [] {
      if keep(s[0]) {
        var w := TakeKept(s, keep);
        TakeKeptShape(s, keep);
        RunsShape(s[|w|..], keep);
        var r := Runs(s, keep);
        assert r == [w] + Runs(s[|w|..], keep);
        forall i, k | 0 <= i < |r| && 0 <= k < |r[i]| ensures keep(r[i][k]) {
          if i > 0 {
            assert r[i] == Runs(s[|w|..], keep)[i - 1];
          }
        }
      } else {
        assert Runs(s, keep) == Runs(SkipUnkept(s, keep), keep);
        RunsShape(SkipUnkept(s, keep), keep);
      }
    }
  }

  /** `s.split()`. */
  function SplitWhitespace(s: string): seq<string>
  {
    Runs(s, NotSpace)
  }

  /** `re.sub("[^K]+", " ", s)` for the character class K given by `keep`:
      every maximal run of other characters becomes one space. */
  function SubstituteRuns(s: string, keep: char -> bool): string
    decreases |s|
  {
    if s == [] then []
    else if keep(s[0]) then
      var w := TakeKept(s, keep);
      w + SubstituteRuns(s[|w|..], keep)
    else " " + SubstituteRuns(SkipUnkept(s, keep), keep)
  }

  /** Every character of `s` is kept or a space. */
  predicate KeptOrSpace(s: string, keep: char -> bool)
  {
    forall i :: 0 <= i < |s| ==> keep(s[i]) || s[i] == ' '
  }

  /** No two characters outside the class are adjacent in `s`. */
  ghost predicate SingleGaps(s: string, keep: char -> bool)
  {
    forall i, j :: 0 <= i < j < |s| && j == i + 1 && !keep(s[i]) ==> keep(s[j])
  }

  /** Only kept characters and single spaces come out of SubstituteRuns,
      and a space is never followed by another space. */
  lemma {:induction false} SubstituteRunsChars(s: string, keep: char -> bool)
    ensures var t := SubstituteRuns(s, keep);
      && KeptOrSpace(t, keep)
      && SingleGaps(t, keep)
      && (t != [] && !keep(t[0]) ==> !keep(s[0]))
    decreases |s|
  {
    if s != [] {
      if keep(s[0]) {
        var w := TakeKept(s, keep);
        var rest := s[|w|..];
        TakeKeptShape(s, keep);
        SubstituteRunsChars(rest, keep);
        var t' := SubstituteRuns(rest, keep);
        assert SubstituteRuns(s, keep) == w + t';
        SubstituteRunsKeptWord(w, t', keep);
      } else {
        var rest := SkipUnkept(s, keep);
        SubstituteRunsChars(rest, keep);
        var t' := SubstituteRuns(rest, keep);
        assert SubstituteRuns(s, keep) == " " + t';
        assert t' != [] ==> rest != [];
        SubstituteRunsSpace(t', keep);
      }
    }
  }

  /** The inductive step of SubstituteRunsChars for a leading kept word. */
  lemma SubstituteRunsKeptWord(w: string, t': string, keep: char -> bool)
    requires w != [] && forall i :: 0 <= i < |w| ==> keep(w[i])
    requires KeptOrSpace(t', keep) && SingleGaps(t', keep)
    ensures var t := w + t';
      KeptOrSpace(t, keep) && SingleGaps(t, keep) && keep(t[0])
  {
    var t := w + t';
    forall i | 0 <= i < |t| ensures keep(t[i]) || t[i] == ' ' {
      if i < |w| {
        assert t[i] == w[i];
      } else {
        assert t[i] == t'[i - |w|];
      }
    }
    forall i, j | 0 <= i < j < |t| && j == i + 1 && !keep(t[i]) ensures keep(t[j]) {
      if i >= |w| {
        assert t[i] == t'[i - |w|];
        assert t[j] == t'[j - |w|];
      }
    }
  }

  /** The inductive step of SubstituteRunsChars for a leading run of other
      characters, which becomes one space before a kept character. */
  lemma SubstituteRunsSpace(t': string, keep: char -> bool)
    requires t' == [] || keep(t'[0])
    requires KeptOrSpace(t', keep) && SingleGaps(t', keep)
    ensures var t := " " + t';
      KeptOrSpace(t, keep) && SingleGaps(t, keep)
  {
    var t := " " + t';
    forall i | 0 <= i < |t| ensures keep(t[i]) || t[i] == ' ' {
      if i > 0 {
        assert t[i] == t'[i - 1];
      }
    }
    forall i, j | 0 <= i < j < |t| && j == i + 1 && !keep(t[i]) ensures keep(t[j]) {
      if i > 0 {
        assert t[i] == t'[i - 1];
      }
      assert t[j] == t'[j - 1];
    }
  }

  /** A leading character outside the class does not change the runs. */
  lemma RunsSkipLeading(c: char, t: string, keep: char -> bool)
    requires !keep(c)
    ensures Runs([c] + t, keep) == Runs(t, keep)
  {
    var s := [c] + t;
    assert s[1..] == t;
    assert SkipUnkept(s, keep) == SkipUnkept(t, keep);
    if t != [] && !keep(t[0]) {
      assert Runs(t, keep) == Runs(SkipUnkept(t, keep), keep);
    } else {
      assert SkipUnkept(t, keep) == t;
    }
  }

  /** A kept, non-empty word followed by the end or by a character outside
      the class is the first run. */
  lemma RunsConcat(w: string, t: string, keep: char -> bool)
    requires w != []
    requires forall i :: 0 <= i < |w| ==> keep(w[i])
    requires t == [] || !keep(t[0])
    ensures Runs(w + t, keep) == [w] + Runs(t, keep)
  {
    var s := w + t;
    assert s[0] == w[0];
    TakeKeptConcat(w, t, keep);
    assert s[|w|..] == t;
  }

  lemma {:induction false} TakeKeptConcat(w: string, t: string, keep: char -> bool)
    requires forall i :: 0 <= i < |w| ==> keep(w[i])
    requires t == [] || !keep(t[0])
    ensures TakeKept(w + t, keep) == w
  {
    if w != [] {
      assert (w + t)[1..] == w[1..] + t;
      TakeKeptConcat(w[1..], t, keep);
    } else {
      assert w + t == t;
    }
  }

  /** Splitting the result of SubstituteRuns on whitespace recovers the
      runs of kept characters of the original, provided the class keeps no
      whitespace: the substitution and the split agree on the words. */
  lemma {:induction false} SplitSubstituted(s: string, keep: char -> bool)
    requires forall c :: keep(c) ==> NotSpace(c)
    ensures SplitWhitespace(SubstituteRuns(s, keep)) == Runs(s, keep)
    decreases |s|
  {
    if s != [] {
      if keep(s[0]) {
        var w := TakeKept(s, keep);
        var rest := s[|w|..];
        TakeKeptShape(s, keep);
        SplitSubstituted(rest, keep);
        var t' := SubstituteRuns(rest, keep);
        assert rest != [] ==> !keep(rest[0]);
        if rest != [] {
          assert t' == " " + SubstituteRuns(SkipUnkept(rest, keep), keep);
        }
        RunsConcat(w, t', NotSpace);
      } else {
        var rest := SkipUnkept(s, keep);
        SplitSubstituted(rest, keep);
        assert !NotSpace(' ');
        RunsSkipLeading(' ', SubstituteRuns(rest, keep), NotSpace);
      }
    }
  }

  /** Joining non-empty words of the class with single spaces and taking
      the runs again gives back the words. */
  lemma {:induction false} RunsOfJoin(ws: seq<string>, keep: char -> bool)
    requires !keep(' ')
    requires forall i :: 0 <= i < |ws| ==> ws[i] != []
    requires forall i, k :: 0 <= i < |ws| && 0 <= k < |ws[i]| ==> keep(ws[i][k])
    ensures Runs(Join(ws, " "), keep) == ws
  {
    if |ws| == 1 {
      RunsConcat(ws[0], [], keep);
      assert ws[0] + [] == ws[0];
    } else if |ws| > 1 {
      var rest := Join(ws[1..], " ");
      var tail := " " + rest;
      assert Join(ws, " ") == ws[0] + tail;
      calc {
        Runs(Join(ws, " "), keep);
        { RunsConcat(ws[0], tail, keep); }
        [ws[0]] + Runs(tail, keep);
        { RunsSkipLeading(' ', rest, keep); }
        [ws[0]] + Runs(rest, keep);
        { RunsOfJoin(ws[1..], keep); }
        [ws[0]] + ws[1..];
      }
      assert ws == [ws[0]] + ws[1..];
    }
  }

  // ---------------------------------------------------------------------
  // Python slicing and integer formatting
  // ---------------------------------------------------------------------

  /** A slice bound normalised as Python does: negative bounds count from
      the end, and every bound is clamped to `0..n`. */
  function SliceBound(i: int, n: nat): (r: nat)
    ensures r <= n
    ensures 0 <= i <= n ==> r == i
  {
    if i < 0 then (if i + n < 0 then 0 else i + n)
    else if i > n then n
    else i
  }

  lemma AppendAssoc<T>(a: seq<T>, b: seq<T>, c: seq<T>)
    ensures a + (b + c) == (a + b) + c
  {
  }

  /** `s[a:b]` with Python's slice semantics. */
  function PySlice<T>(s: seq<T>, a: int, b: int): (r: seq<T>)
    ensures |r| <= |s|
    ensures 0 <= a <= b ==> |r| <= b - a
  {
    var lo := SliceBound(a, |s|);
    var hi := SliceBound(b, |s|);
    if lo < hi then s[lo..hi] else []
  }

  /** The slice is the run of items from the normalised start to the
      normalised end, when the end lies past the start. */
  lemma PySliceItems<T>(s: seq<T>, a: int, b: int)
    ensures var r := PySlice(s, a, b);
      && SliceBound(a, |s|) + |r| <= |s|
      && (SliceBound(a, |s|) < SliceBound(b, |s|) ==> |r| == SliceBound(b, |s|) - SliceBound(a, |s|))
      && forall i :: 0 <= i < |r| ==> r[i] == s[SliceBound(a, |s|) + i]
  {
  }

  /** `s[:k]`: for a non-negative `k` the first `min(k, |s|)` items. */
  lemma PyPrefix<T>(s: seq<T>, k: int)
    requires k >= 0
    ensures PySlice(s, 0, k) == s[..if k < |s| then k else |s|]
  {
  }

  /** `str(n)` for a natural number. */
  function NatToString(n: nat): (r: string)
    ensures r != []
    ensures forall i :: 0 <= i < |r| ==> '0' <= r[i] <= '9'
  {
    var d := ['0' + (n % 10) as char];
    if n < 10 then d else NatToString(n / 10) + d
  }

  /** `str(i)` for an integer. */
  function IntToString(i: int): string
  {
    if i < 0 then "-" + NatToString(-i) else NatToString(i)
  }

  /** The value of a string of decimal digits. */
  function DigitsValue(s: string): nat
    requires forall i :: 0 <= i < |s| ==> '0' <= s[i] <= '9'
  {
    if s == [] then 0 else 10 * DigitsValue(s[..|s| - 1]) + (s[|s| - 1] - '0') as int
  }

  /** Printing a natural number and reading its digits back gives the
      number. */
  lemma {:induction false} NatToStringRoundTrip(n: nat)
    ensures DigitsValue(NatToString(n)) == n
  {
    var r := NatToString(n);
    if n >= 10 {
      NatToStringRoundTrip(n / 10);
      assert r[..|r| - 1] == NatToString(n / 10);
    }
  }

  // ---------------------------------------------------------------------
  // ASCII case mapping
  // ---------------------------------------------------------------------

  function LowerChar(c: char): char
  {
    if 'A' <= c <= 'Z' then (c as int + 32) as char else c
  }

  function UpperChar(c: char): char
  {
    if 'a' <= c <= 'z' then (c as int - 32) as char else c
  }

  /** `s.lower()`. */
  function Lower(s: string): (r: string)
    ensures |r| == |s|
    ensures forall i :: 0 <= i < |s| ==> r[i] == LowerChar(s[i])
  {
    if s == [] then [] else [LowerChar(s[0])] + Lower(s[1..])
  }

  /** `s.capitalize()`: first character upper-cased, the rest lower-cased. */
  function Capitalize(s: string): string
  {
    if s == [] then [] else [UpperChar(s[0])] + Lower(s[1..])
  }

  /** Capitalising does not change how a name compares case-insensitively. */
  lemma LowerCapitalize(s: string)
    ensures Lower(Capitalize(s)) == Lower(s)
  {
    if s != [] {
      var c := Capitalize(s);
      var tail := Lower(s[1..]);
      var a := Lower(c);
      var b := Lower(s);
      forall i | 0 <= i < |s| ensures a[i] == b[i] {
        if i == 0 {
          assert c[0] == UpperChar(s[0]);
        } else {
          assert c[i] == tail[i - 1] == LowerChar(s[i]);
        }
      }
      assert |a| == |b|;
    }
  }
}
