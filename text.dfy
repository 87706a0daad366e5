/**
 * The string operations the components use: `trim()`, `split(',')`, `charAt(0)` and
 * `replace(/\s+/g, '_')`.
 *
 * Whitespace is a fixed set: the ECMAScript WhiteSpace and LineTerminator code points
 * (tab, vertical tab, form feed, space, no-break space, the byte-order mark, the Unicode
 * space separators, line feed, carriage return, line and paragraph separator). Both `trim`
 * and `\s` use this set.
 */
module Text {
  import Seqs

  predicate IsSpace(c: char) {
    || c == '\t' || c == '\n' || c == '\U{000B}' || c == '\U{000C}' || c == '\r' || c == ' '
    || c == '\U{00A0}' || c == '\U{1680}' || ('\U{2000}' <= c <= '\U{200A}')
    || c == '\U{2028}' || c == '\U{2029}' || c == '\U{202F}' || c == '\U{205F}'
    || c == '\U{3000}' || c == '\U{FEFF}'
  }

  predicate AllSpace(s: string) {
    forall i :: 0 <= i < |s| ==> IsSpace(s[i])
  }

  predicate NoSpace(s: string) {
    forall i :: 0 <= i < |s| ==> !IsSpace(s[i])
  }

  /** `s` with its leading whitespace removed: a suffix of `s`, cut after the last leading space. */
  function TrimStart(s: string): (r: string)
    ensures |r| <= |s|
    decreases |s|
  {
    if s != [] && IsSpace(s[0]) then TrimStart(s[1..]) else s
  }

  lemma {:induction false} TrimStartSpec(s: string)
    ensures TrimStart(s) == s[|s| - |TrimStart(s)|..]
    ensures AllSpace(s[..|s| - |TrimStart(s)|])
    ensures TrimStart(s) == [] || !IsSpace(TrimStart(s)[0])
    decreases |s|
  {
    if s != [] && IsSpace(s[0]) {
      TrimStartSpec(s[1..]);
      assert s[1..][..|s| - 1 - |TrimStart(s)|] == s[1..|s| - |TrimStart(s)|];
    }
  }

  /** `s` with its trailing whitespace removed: a prefix of `s`, cut before the first trailing space. */
  function TrimEnd(s: string): (r: string)
    ensures |r| <= |s|
    decreases |s|
  {
    if s != [] && IsSpace(s[|s| - 1]) then TrimEnd(s[..|s| - 1]) else s
  }

  lemma {:induction false} TrimEndSpec(s: string)
    ensures TrimEnd(s) == s[..|TrimEnd(s)|]
    ensures AllSpace(s[|TrimEnd(s)|..])
    ensures TrimEnd(s) == [] || !IsSpace(TrimEnd(s)[|TrimEnd(s)| - 1])
    decreases |s|
  {
    if s != [] && IsSpace(s[|s| - 1]) {
      TrimEndSpec(s[..|s| - 1]);
    }
  }

  /** `s.trim()`. */
  function Trim(s: string): (r: string)
    ensures |r| <= |s|
    ensures r == [] || (!IsSpace(r[0]) && !IsSpace(r[|r| - 1]))
    ensures r == [] <==> AllSpace(s)
  {
    var t := TrimStart(s);
    var r := TrimEnd(t);
    TrimStartSpec(s);
    TrimEndSpec(t);
    assert r == [] ==> AllSpace(s) by {
      if r == [] {
        assert s == s[..|s| - |t|] + t;
      }
    }
    r
  }

  /** Trimming removes exactly the blank padding around a word that starts and ends with a non-blank. */
  lemma TrimOfPadded(left: string, word: string, right: string)
    requires AllSpace(left) && AllSpace(right)
    requires word != [] && !IsSpace(word[0]) && !IsSpace(word[|word| - 1])
    ensures Trim(left + word + right) == word
  {
    TrimStartAllSpace(left, word + right);
    assert left + word + right == left + (word + right);
    TrimEndOfPadded(word, right);
  }

  lemma {:induction false} TrimEndOfPadded(word: string, right: string)
    requires AllSpace(right)
    requires word != [] && !IsSpace(word[|word| - 1])
    ensures TrimEnd(word + right) == word
    decreases |right|
  {
    var s := word + right;
    if right == [] {
      assert s == word;
    } else {
      assert s[|s| - 1] == right[|right| - 1];
      assert s[..|s| - 1] == word + right[..|right| - 1];
      TrimEndOfPadded(word, right[..|right| - 1]);
    }
  }

  /** Trimming an already trimmed string changes nothing. */
  lemma TrimIdempotent(s: string)
    ensures Trim(Trim(s)) == Trim(s)
  {
    var r := Trim(s);
    assert TrimStart(r) == r;
    assert TrimEnd(r) == r;
  }

  /** `s.charAt(0)`: the first character as a string, or the empty string. */
  function FirstChar(s: string): (r: string)
    ensures |r| == if s == [] then 0 else 1
    ensures s != [] ==> r == s[..1]
  {
    if s == [] then "" else [s[0]]
  }

  /** Number of occurrences of `c` in `s`. */
  function Occurrences(s: string, c: char): nat {
    if s == [] then 0 else (if s[0] == c then 1 else 0) + Occurrences(s[1..], c)
  }

  /**
   * `s.split(sep)` for a one-character separator: the pieces between separators, empty
   * pieces included; one piece more than there are separators (`"".split(',')` is `[""]`).
   */
  function Split(s: string, sep: char): (r: seq<string>)
    ensures |r| == Occurrences(s, sep) + 1
    ensures forall k :: 0 <= k < |r| ==> sep !in r[k]
  {
    if s == [] then [""]
    else
      var rest := Split(s[1..], sep);
      if s[0] == sep then [""] + rest else [[s[0]] + rest[0]] + rest[1..]
  }

  /** `pieces.join(sep)`. */
  function Join(pieces: seq<string>, sep: char): string
    requires |pieces| >= 1
  {
    if |pieces| == 1 then pieces[0] else pieces[0] + [sep] + Join(pieces[1..], sep)
  }

  /** Joining the pieces of a split gives back the string. */
  lemma {:induction false} JoinSplit(s: string, sep: char)
    ensures Join(Split(s, sep), sep) == s
  {
    if s != [] {
      JoinSplit(s[1..], sep);
      var rest := Split(s[1..], sep);
      if s[0] == sep {
        assert ([""] + rest)[1..] == rest;
      } else {
        var r := [[s[0]] + rest[0]] + rest[1..];
        if |rest| > 1 {
          assert r[1..] == rest[1..];
          assert Join(rest, sep) == rest[0] + [sep] + Join(rest[1..], sep);
        }
      }
    }
  }

  /** Splitting a join of separator-free pieces gives back the pieces. */
  lemma {:induction false} SplitJoin(pieces: seq<string>, sep: char)
    requires |pieces| >= 1
    requires forall k :: 0 <= k < |pieces| ==> sep !in pieces[k]
    ensures Split(Join(pieces, sep), sep) == pieces
    decreases |pieces|, |pieces[0]|
  {
    if |pieces| == 1 {
      SplitNoSeparator(pieces[0], sep);
    } else {
      var tail := Join(pieces[1..], sep);
      if pieces[0] == [] {
        assert Join(pieces, sep) == [sep] + tail;
        assert ([sep] + tail)[1..] == tail;
        SplitJoin(pieces[1..], sep);
      } else {
        var p0 := pieces[0];
        var shorter := [p0[1..]] + pieces[1..];
        assert shorter[1..] == pieces[1..];
        assert Join(pieces, sep) == [p0[0]] + Join(shorter, sep);
        assert p0[0] != sep by {
          assert p0[0] in pieces[0];
        }
        SplitJoin(shorter, sep);
        SplitAfterOrdinaryChar(p0[0], Join(shorter, sep), sep);
        assert [p0[0]] + p0[1..] == p0;
        assert pieces == [p0] + shorter[1..];
      }
    }
  }

  /** A character other than the separator joins the first piece of the rest. */
  lemma SplitAfterOrdinaryChar(c: char, s: string, sep: char)
    requires c != sep
    ensures Split([c] + s, sep) == [[c] + Split(s, sep)[0]] + Split(s, sep)[1..]
  {
    assert ([c] + s)[1..] == s;
  }

  lemma {:induction false} SplitNoSeparator(s: string, sep: char)
    requires sep !in s
    ensures Split(s, sep) == [s]
  {
    if s != [] {
      SplitNoSeparator(s[1..], sep);
      assert [s[0]] + s[1..] == s;
    }
  }

  /**
   * `s.replace(/\s+/g, '_')`: every maximal run of whitespace becomes one underscore;
   * everything else is kept.
   */
  function ReplaceSpaceRuns(s: string): (r: string)
    ensures |r| <= |s|
    decreases |s|
  {
    if s == [] then []
    else if IsSpace(s[0]) then "_" + ReplaceSpaceRuns(TrimStart(s[1..]))
    else [s[0]] + ReplaceSpaceRuns(s[1..])
  }

  /** The result contains no whitespace at all. */
  lemma {:induction false} ReplaceSpaceRunsHasNoSpace(s: string)
    ensures NoSpace(ReplaceSpaceRuns(s))
    decreases |s|
  {
    if s != [] {
      if IsSpace(s[0]) {
        ReplaceSpaceRunsHasNoSpace(TrimStart(s[1..]));
      } else {
        ReplaceSpaceRunsHasNoSpace(s[1..]);
      }
    }
  }

  /** A string without whitespace is left unchanged. */
  lemma {:induction false} ReplaceSpaceRunsNoSpace(s: string)
    requires NoSpace(s)
    ensures ReplaceSpaceRuns(s) == s
  {
    if s != [] {
      ReplaceSpaceRunsNoSpace(s[1..]);
      assert [s[0]] + s[1..] == s;
    }
  }

  /** The replacement is idempotent. */
  lemma ReplaceSpaceRunsIdempotent(s: string)
    ensures ReplaceSpaceRuns(ReplaceSpaceRuns(s)) == ReplaceSpaceRuns(s)
  {
    ReplaceSpaceRunsHasNoSpace(s);
    ReplaceSpaceRunsNoSpace(ReplaceSpaceRuns(s));
  }

  /** A non-empty run consisting only of whitespace becomes a single underscore. */
  lemma ReplaceSpaceRunsOfRun(w: string)
    requires w != [] && AllSpace(w)
    ensures ReplaceSpaceRuns(w) == "_"
  {
    assert AllSpace(w[1..]);
  }

  lemma {:induction false} TrimStartConcat(a: string, b: string)
    requires !AllSpace(a)
    ensures TrimStart(a + b) == TrimStart(a) + b
  {
    if IsSpace(a[0]) {
      assert (a + b)[1..] == a[1..] + b;
      assert !AllSpace(a[1..]) by {
        var i :| 0 <= i < |a| && !IsSpace(a[i]);
        assert a[1..][i - 1] == a[i];
      }
      TrimStartConcat(a[1..], b);
    }
  }

  lemma TrimStartAllSpace(a: string, b: string)
    requires AllSpace(a)
    requires b == [] || !IsSpace(b[0])
    ensures TrimStart(a + b) == b
    decreases |a|
  {
    if a != [] {
      assert (a + b)[1..] == a[1..] + b;
      TrimStartAllSpace(a[1..], b);
    } else {
      assert a + b == b;
    }
  }

  /**
   * The replacement works piece by piece: splitting the string at a point that is not
   * inside a whitespace run does not change the result.
   */
  lemma {:induction false} ReplaceSpaceRunsConcat(a: string, b: string)
    requires a == [] || b == [] || !IsSpace(a[|a| - 1]) || !IsSpace(b[0])
    ensures ReplaceSpaceRuns(a + b) == ReplaceSpaceRuns(a) + ReplaceSpaceRuns(b)
    decreases |a|, 1
  {
    if a == [] {
      assert a + b == b;
    } else if b == [] {
      assert a + b == a;
    } else if !IsSpace(a[0]) {
      ConcatAfterNonSpaceHead(a, b);
    } else if AllSpace(a[1..]) {
      ReplaceOfRunThenRest(a, b);
    } else {
      ConcatAfterInnerRun(a, b);
    }
  }

  lemma {:induction false} ConcatAfterNonSpaceHead(a: string, b: string)
    requires a != [] && b != [] && !IsSpace(a[0])
    requires !IsSpace(a[|a| - 1]) || !IsSpace(b[0])
    ensures ReplaceSpaceRuns(a + b) == ReplaceSpaceRuns(a) + ReplaceSpaceRuns(b)
    decreases |a|, 0
  {
    var tail := a[1..];
    assert tail == [] || tail[|tail| - 1] == a[|a| - 1];
    ReplaceSpaceRunsConcat(tail, b);
    ReplaceOfNonSpaceHead(a, b);
    Seqs.AppendAssoc([a[0]], ReplaceSpaceRuns(tail), ReplaceSpaceRuns(b));
  }

  lemma {:induction false} ConcatAfterInnerRun(a: string, b: string)
    requires a != [] && b != [] && IsSpace(a[0]) && !AllSpace(a[1..])
    requires !IsSpace(a[|a| - 1]) || !IsSpace(b[0])
    ensures ReplaceSpaceRuns(a + b) == ReplaceSpaceRuns(a) + ReplaceSpaceRuns(b)
    decreases |a|, 0
  {
    var t := TrimStart(a[1..]);
    TrimStartKeepsLast(a[1..]);
    ReplaceSpaceRunsConcat(t, b);
    RunInsideThenRest(a, b);
  }

  /** Case of the above, once the part after the leading run is known to split. */
  lemma RunInsideThenRest(a: string, b: string)
    requires a != [] && IsSpace(a[0]) && !AllSpace(a[1..])
    requires ReplaceSpaceRuns(TrimStart(a[1..]) + b) == ReplaceSpaceRuns(TrimStart(a[1..])) + ReplaceSpaceRuns(b)
    ensures ReplaceSpaceRuns(a + b) == ReplaceSpaceRuns(a) + ReplaceSpaceRuns(b)
  {
    ReplaceOfRunInside(a, b);
    Seqs.AppendAssoc("_", ReplaceSpaceRuns(TrimStart(a[1..])), ReplaceSpaceRuns(b));
  }

  lemma {:induction false} TrimStartKeepsLast(s: string)
    requires !AllSpace(s)
    ensures TrimStart(s) != [] && TrimStart(s)[|TrimStart(s)| - 1] == s[|s| - 1]
    decreases |s|
  {
    if IsSpace(s[0]) {
      assert !AllSpace(s[1..]) by {
        var i :| 0 <= i < |s| && !IsSpace(s[i]);
        assert s[1..][i - 1] == s[i];
      }
      TrimStartKeepsLast(s[1..]);
    }
  }

  /** Case of the above: `a` starts outside whitespace. */
  lemma ReplaceOfNonSpaceHead(a: string, b: string)
    requires a != [] && !IsSpace(a[0])
    ensures ReplaceSpaceRuns(a + b) == [a[0]] + ReplaceSpaceRuns(a[1..] + b)
    ensures ReplaceSpaceRuns(a) == [a[0]] + ReplaceSpaceRuns(a[1..])
  {
    assert (a + b)[1..] == a[1..] + b;
  }

  /** Case of the above: `a` is one whitespace run and `b` starts outside it. */
  lemma ReplaceOfRunThenRest(a: string, b: string)
    requires a != [] && b != [] && AllSpace(a) && !IsSpace(b[0])
    ensures ReplaceSpaceRuns(a + b) == ReplaceSpaceRuns(a) + ReplaceSpaceRuns(b)
  {
    assert (a + b)[1..] == a[1..] + b;
    TrimStartAllSpace(a[1..], b);
    ReplaceSpaceRunsOfRun(a);
  }

  /** Case of the above: `a` starts with a run that ends inside `a`. */
  lemma ReplaceOfRunInside(a: string, b: string)
    requires a != [] && IsSpace(a[0]) && !AllSpace(a[1..])
    ensures ReplaceSpaceRuns(a + b) == "_" + ReplaceSpaceRuns(TrimStart(a[1..]) + b)
    ensures ReplaceSpaceRuns(a) == "_" + ReplaceSpaceRuns(TrimStart(a[1..]))
  {
    assert (a + b)[1..] == a[1..] + b;
    TrimStartConcat(a[1..], b);
  }
}
