/** String operations the server actions rely on: literal global replacement
    (`String.prototype.replace` with a `/…/g` pattern), `trim`, `join` and the
    concatenation of streamed chunks. */
module Text {

  /** True when `pat` occurs somewhere inside `s`. */
  predicate Occurs(s: string, pat: string)
    decreases |s|
  {
    pat <= s || (|s| > 0 && Occurs(s[1..], pat))
  }

  /** Replaces, from left to right and without overlap, every occurrence of the
      non-empty literal `pat` in `s` by `rep`. Matching is exact, so it is
      case-sensitive. */
  function ReplaceAll(s: string, pat: string, rep: string): string
    requires |pat| > 0
    decreases |s|
  {
    if s == [] then []
    else if pat <= s then rep + ReplaceAll(s[|pat|..], pat, rep)
    else [s[0]] + ReplaceAll(s[1..], pat, rep)
  }

  /** A text in which `pat` does not occur comes out of the replacement unchanged. */
  lemma {:induction false} ReplaceAllAbsent(s: string, pat: string, rep: string)
    requires |pat| > 0 && !Occurs(s, pat)
    ensures ReplaceAll(s, pat, rep) == s
    decreases |s|
  {
    if s != [] {
      ReplaceAllAbsent(s[1..], pat, rep);
    }
  }

  /** A prefix in which no occurrence of the pattern starts is copied verbatim,
      and the scan resumes at its end. */
  lemma {:induction false} ReplaceAllPassesOver(a: string, b: string, pat: string, rep: string)
    requires |pat| > 0
    requires forall i :: 0 <= i < |a| ==> !(pat <= a[i..] + b)
    ensures ReplaceAll(a + b, pat, rep) == a + ReplaceAll(b, pat, rep)
    decreases |a|
  {
    if a == [] {
      assert a + b == b;
    } else {
      assert a[0..] == a;
      assert (a + b)[1..] == a[1..] + b;
      forall i | 0 <= i < |a[1..]| ensures !(pat <= a[1..][i..] + b) {
        assert a[1..][i..] == a[i + 1..];
      }
      ReplaceAllPassesOver(a[1..], b, pat, rep);
      assert a == [a[0]] + a[1..];
    }
  }

  /** A prefix without the pattern's first character is copied verbatim. */
  lemma ReplaceAllSkipsPrefix(a: string, b: string, pat: string, rep: string)
    requires |pat| > 0 && pat[0] !in a
    ensures ReplaceAll(a + b, pat, rep) == a + ReplaceAll(b, pat, rep)
  {
    forall i | 0 <= i < |a| ensures !(pat <= a[i..] + b) {
      assert (a[i..] + b)[0] == a[i];
    }
    ReplaceAllPassesOver(a, b, pat, rep);
  }

  /** An occurrence at the front is replaced and the scan resumes after it. */
  lemma ReplaceAllAtFront(b: string, pat: string, rep: string)
    requires |pat| > 0
    ensures ReplaceAll(pat + b, pat, rep) == rep + ReplaceAll(b, pat, rep)
  {
    assert (pat + b)[|pat|..] == b;
  }

  /** The whitespace that `trim` removes: the ASCII spaces and line breaks,
      no-break space, the byte-order mark and the two Unicode line separators
      (the other Unicode space separators are not included). */
  predicate IsWhitespace(c: char) {
    || c == ' ' || c == '\t' || c == '\n' || c == '\r' || c == '\U{B}' || c == '\U{C}'
    || c == '\U{A0}' || c == '\U{FEFF}' || c == '\U{2028}' || c == '\U{2029}'
  }

  /** A text made only of whitespace (the empty text included). */
  predicate IsBlank(s: string) {
    forall i :: 0 <= i < |s| ==> IsWhitespace(s[i])
  }

  /** `s` without leading whitespace. */
  function TrimStart(s: string): (r: string)
    ensures |r| <= |s| && r == s[|s| - |r|..]
    ensures r == [] || !IsWhitespace(r[0])
    decreases |s|
  {
    if s != [] && IsWhitespace(s[0]) then TrimStart(s[1..]) else s
  }

  /** `s` without trailing whitespace. */
  function TrimEnd(s: string): (r: string)
    ensures r <= s
    ensures r == [] || !IsWhitespace(r[|r| - 1])
    decreases |s|
  {
    if s != [] && IsWhitespace(s[|s| - 1]) then TrimEnd(s[..|s| - 1]) else s
  }

  /** `s.trim()`: whitespace removed at both ends, so the result neither
      starts nor ends with whitespace. */
  function Trim(s: string): (r: string)
    ensures |r| <= |s|
    ensures r == [] || (!IsWhitespace(r[0]) && !IsWhitespace(r[|r| - 1]))
  {
    var t := TrimStart(s);
    var u := TrimEnd(t);
    assert u != [] ==> u[0] == t[0];
    u
  }

  lemma {:induction false} TrimStartEmptyIffBlank(s: string)
    ensures TrimStart(s) == [] <==> IsBlank(s)
    decreases |s|
  {
    if s != [] && IsWhitespace(s[0]) {
      var tail := s[1..];
      TrimStartEmptyIffBlank(tail);
      assert TrimStart(s) == TrimStart(tail);
      if IsBlank(tail) {
        forall i | 0 <= i < |s| ensures IsWhitespace(s[i]) {
          if i > 0 { assert s[i] == tail[i - 1]; }
        }
      } else {
        var k :| 0 <= k < |tail| && !IsWhitespace(tail[k]);
        assert s[k + 1] == tail[k];
      }
    } else if s != [] {
      assert TrimStart(s) == s;
    }
  }

  lemma {:induction false} TrimEndEmptyIffBlank(s: string)
    ensures TrimEnd(s) == [] <==> IsBlank(s)
    decreases |s|
  {
    if s != [] && IsWhitespace(s[|s| - 1]) {
      var p := s[..|s| - 1];
      TrimEndEmptyIffBlank(p);
      assert IsBlank(s) <==> IsBlank(p) by {
        if IsBlank(p) {
          forall i | 0 <= i < |s| ensures IsWhitespace(s[i]) {
            if i < |s| - 1 { assert s[i] == p[i]; }
          }
        }
      }
    }
  }

  /** What `TrimStart` cuts off is whitespace. */
  lemma {:induction false} TrimStartCutsBlank(s: string)
    ensures IsBlank(s[..|s| - |TrimStart(s)|])
    decreases |s|
  {
    if s != [] && IsWhitespace(s[0]) {
      var tail := s[1..];
      TrimStartCutsBlank(tail);
      var cut, tailCut := s[..|s| - |TrimStart(s)|], tail[..|tail| - |TrimStart(tail)|];
      forall i | 0 <= i < |cut| ensures IsWhitespace(cut[i]) {
        if i > 0 { assert cut[i] == tailCut[i - 1]; }
      }
    }
  }

  /** What `TrimEnd` cuts off is whitespace. */
  lemma {:induction false} TrimEndCutsBlank(s: string)
    ensures IsBlank(s[|TrimEnd(s)|..])
    decreases |s|
  {
    if s != [] && IsWhitespace(s[|s| - 1]) {
      var front := s[..|s| - 1];
      TrimEndCutsBlank(front);
      var cut, frontCut := s[|TrimEnd(s)|..], front[|TrimEnd(front)|..];
      forall i | 0 <= i < |cut| ensures IsWhitespace(cut[i]) {
        if i < |frontCut| { assert cut[i] == frontCut[i]; }
      }
    }
  }

  /** `trim()` keeps exactly the part of the text between a blank prefix and a
      blank suffix. */
  lemma TrimIsMiddle(s: string)
    ensures exists i :: (0 <= i <= |s| - |Trim(s)| && Trim(s) == s[i..i + |Trim(s)|]
                         && IsBlank(s[..i]) && IsBlank(s[i + |Trim(s)|..]))
  {
    var t := TrimStart(s);
    var u := TrimEnd(t);
    var i := |s| - |t|;
    TrimStartCutsBlank(s);
    TrimEndCutsBlank(t);
    assert u == s[i..i + |u|];
    assert s[i + |u|..] == t[|u|..];
    assert 0 <= i <= |s| - |u| && IsBlank(s[..i]) && IsBlank(s[i + |u|..]);
  }

  /** `s.trim().length > 0` exactly when `s` holds a non-whitespace character. */
  lemma TrimEmptyIffBlank(s: string)
    ensures Trim(s) == [] <==> IsBlank(s)
  {
    TrimStartEmptyIffBlank(s);
    TrimEndEmptyIffBlank(TrimStart(s));
    var t := TrimStart(s);
    if t != [] {
      assert !IsWhitespace(t[0]);
      assert !IsBlank(t);
    }
  }

  /** `parts.join(sep)`. */
  function Join(parts: seq<string>, sep: string): string
    decreases |parts|
  {
    if parts == [] then []
    else if |parts| == 1 then parts[0]
    else parts[0] + sep + Join(parts[1..], sep)
  }

  /** Whatever occurs in one part occurs in the joined text. */
  lemma {:induction false} OccursInJoin(parts: seq<string>, sep: string, i: nat, x: string)
    requires i < |parts| && Occurs(parts[i], x)
    ensures Occurs(Join(parts, sep), x)
    decreases i
  {
    if |parts| > 1 {
      if i == 0 {
        OccursBefore(parts[0], sep + Join(parts[1..], sep), x);
        assert parts[0] + sep + Join(parts[1..], sep) == parts[0] + (sep + Join(parts[1..], sep));
      } else {
        OccursInJoin(parts[1..], sep, i - 1, x);
        OccursAfter(parts[0] + sep, Join(parts[1..], sep), x);
      }
    }
  }

  /** The chunks of a stream put together in the order they arrived. */
  function Concat(chunks: seq<string>): string
    decreases |chunks|
  {
    if chunks == [] then [] else chunks[0] + Concat(chunks[1..])
  }

  /** Whatever occurs in one chunk occurs in the concatenation of all of them. */
  lemma {:induction false} OccursInConcat(chunks: seq<string>, i: nat, x: string)
    requires i < |chunks| && Occurs(chunks[i], x)
    ensures Occurs(Concat(chunks), x)
    decreases i
  {
    if i == 0 {
      OccursBefore(chunks[0], Concat(chunks[1..]), x);
    } else {
      OccursInConcat(chunks[1..], i - 1, x);
      OccursAfter(chunks[0], Concat(chunks[1..]), x);
    }
  }

  /** Appending one more chunk extends the concatenation by exactly that chunk. */
  lemma {:induction false} ConcatSnoc(chunks: seq<string>, c: string)
    ensures Concat(chunks + [c]) == Concat(chunks) + c
    decreases |chunks|
  {
    if chunks == [] {
      assert [] + [c] == [c];
    } else {
      assert (chunks + [c])[1..] == chunks[1..] + [c];
      ConcatSnoc(chunks[1..], c);
    }
  }

  /** The concatenation is as long as all chunks together. */
  function TotalLength(chunks: seq<string>): nat
    decreases |chunks|
  {
    if chunks == [] then 0 else |chunks[0]| + TotalLength(chunks[1..])
  }

  lemma {:induction false} ConcatLength(chunks: seq<string>)
    ensures |Concat(chunks)| == TotalLength(chunks)
    decreases |chunks|
  {
    if chunks != [] {
      ConcatLength(chunks[1..]);
    }
  }

  lemma OccursItself(x: string)
    ensures Occurs(x, x)
  {
  }

  /** Text added after an occurrence keeps it. */
  lemma {:induction false} OccursBefore(s: string, b: string, x: string)
    requires Occurs(s, x)
    ensures Occurs(s + b, x)
    decreases |s|
  {
    if !(x <= s) {
      assert (s + b)[1..] == s[1..] + b;
      OccursBefore(s[1..], b, x);
    }
  }

  /** Text added before an occurrence keeps it. */
  lemma {:induction false} OccursAfter(a: string, s: string, x: string)
    requires Occurs(s, x)
    ensures Occurs(a + s, x)
    decreases |a|
  {
    if a == [] {
      assert a + s == s;
    } else {
      assert (a + s)[1..] == a[1..] + s;
      OccursAfter(a[1..], s, x);
    }
  }
}
