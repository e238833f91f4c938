/**
 * The string splitting the session code relies on: `s.split(sep)`, and the
 * first (`shift()`) and last (`pop()`) piece of that split, for a
 * one-character separator.
 */
module Segments {

  /** The pieces of `s` between occurrences of `sep`, as `s.split(sep)`
      returns them: never empty, and with an empty piece wherever two
      separators touch or `s` starts or ends with `sep`. */
  function Split(s: string, sep: char): (parts: seq<string>)
    ensures |parts| >= 1
    ensures forall i :: 0 <= i < |parts| ==> sep !in parts[i]
  {
    if s == [] then [""]
    else if s[0] == sep then [""] + Split(s[1..], sep)
    else
      var rest := Split(s[1..], sep);
      [[s[0]] + rest[0]] + rest[1..]
  }

  /** `parts.join(sep)`. */
  function Join(parts: seq<string>, sep: char): string
    requires |parts| >= 1
  {
    if |parts| == 1 then parts[0] else parts[0] + [sep] + Join(parts[1..], sep)
  }

  /** `s.split(sep).shift()`: everything before the first `sep`, or all of
      `s` when it holds none. */
  function FirstSegment(s: string, sep: char): (head: string)
    ensures sep !in head
    ensures |head| <= |s| && head == s[..|head|]
    ensures head == s || s[|head|] == sep
  {
    if s == [] || s[0] == sep then "" else [s[0]] + FirstSegment(s[1..], sep)
  }

  /** `s.split(sep).pop()`: everything after the last `sep`, or all of `s`
      when it holds none. */
  function LastSegment(s: string, sep: char): (tail: string)
    ensures sep !in tail
    ensures |tail| <= |s| && tail == s[|s| - |tail|..]
    ensures tail == s || s[|s| - |tail| - 1] == sep
  {
    if s == [] || s[|s| - 1] == sep then ""
    else LastSegment(s[..|s| - 1], sep) + [s[|s| - 1]]
  }

  /** Splitting loses nothing: joining the pieces gives `s` back. */
  lemma {:induction false} JoinSplit(s: string, sep: char)
    ensures Join(Split(s, sep), sep) == s
  {
    if s == [] {
    } else {
      var rest := Split(s[1..], sep);
      JoinSplit(s[1..], sep);
      if s[0] == sep {
        assert Split(s, sep) == [""] + rest;
        assert ([""] + rest)[1..] == rest;
      } else {
        var parts := [[s[0]] + rest[0]] + rest[1..];
        assert Split(s, sep) == parts;
        if |rest| == 1 {
          assert Join(parts, sep) == [s[0]] + rest[0];
        } else {
          assert parts[1..] == rest[1..];
          assert Join(rest, sep) == rest[0] + [sep] + Join(rest[1..], sep);
          assert Join(parts, sep) == [s[0]] + rest[0] + [sep] + Join(rest[1..], sep);
        }
      }
    }
  }

  /** How the split of `s` grows when one character is appended. */
  function Snoc(parts: seq<string>, c: char, sep: char): seq<string>
    requires |parts| >= 1
  {
    if c == sep then parts + [""] else parts[..|parts| - 1] + [parts[|parts| - 1] + [c]]
  }

  lemma {:induction false} SplitSnoc(s: string, c: char, sep: char)
    ensures Split(s + [c], sep) == Snoc(Split(s, sep), c, sep)
  {
    if s == [] {
      assert s + [c] == [c] && [c][1..] == [];
      assert Split([], sep) == [""];
      if c == sep {
        assert Split([c], sep) == [""] + [""];
      } else {
        assert Split([c], sep) == [[c] + ""] + [""][1..];
        assert [c] + "" == [c] && "" + [c] == [c];
        assert Split([c], sep) == [[c]];
        assert Snoc([""], c, sep) == [[c]];
      }
    } else {
      var sc := s + [c];
      assert sc[0] == s[0] && sc[1..] == s[1..] + [c];
      SplitSnoc(s[1..], c, sep);
      if s[0] != sep {
        SnocUnderHead(Split(s[1..], sep), s[0], c, sep);
      }
    }
  }

  /** Appending at the end commutes with extending the first piece at the front. */
  lemma SnocUnderHead(r: seq<string>, h: char, c: char, sep: char)
    requires |r| >= 1
    ensures var r' := Snoc(r, c, sep);
      |r'| >= 1 && [[h] + r'[0]] + r'[1..] == Snoc([[h] + r[0]] + r[1..], c, sep)
  {
    var r' := Snoc(r, c, sep);
    if c == sep {
      assert r'[0] == r[0] && r'[1..] == r[1..] + [""];
    } else if |r| == 1 {
      assert r' == [r[0] + [c]];
      assert [h] + (r[0] + [c]) == ([h] + r[0]) + [c];
    } else {
      var q := [[h] + r[0]] + r[1..];
      assert r'[0] == r[0];
      assert r'[1..] == r[1..|r| - 1] + [r[|r| - 1] + [c]];
      assert q[..|q| - 1] == [[h] + r[0]] + r[1..|r| - 1];
      assert q[|q| - 1] == r[|r| - 1];
    }
  }

  /** The first piece of the split is `FirstSegment`. */
  lemma {:induction false} FirstSegmentIsFirstPiece(s: string, sep: char)
    ensures FirstSegment(s, sep) == Split(s, sep)[0]
  {
    if s != [] && s[0] != sep {
      FirstSegmentIsFirstPiece(s[1..], sep);
    }
  }

  /** The last piece of the split is `LastSegment`. */
  lemma {:induction false} LastSegmentIsLastPiece(s: string, sep: char)
    ensures var p := Split(s, sep); LastSegment(s, sep) == p[|p| - 1]
  {
    if s != [] {
      var init := s[..|s| - 1];
      assert s == init + [s[|s| - 1]];
      LastSegmentIsLastPiece(init, sep);
      SplitSnoc(init, s[|s| - 1], sep);
    }
  }

  /** A piece free of `sep` that follows a `sep` is the last segment. */
  lemma {:induction false} LastSegmentAfterSeparator(prefix: string, tail: string, sep: char)
    requires sep !in tail
    ensures LastSegment(prefix + [sep] + tail, sep) == tail
  {
    var s := prefix + [sep] + tail;
    if tail != [] {
      var init := tail[..|tail| - 1];
      assert s[..|s| - 1] == prefix + [sep] + init;
      LastSegmentAfterSeparator(prefix, init, sep);
      assert tail == init + [tail[|tail| - 1]];
    }
  }

  /** A piece free of `sep` that precedes a `sep` is the first segment. */
  lemma {:induction false} FirstSegmentBeforeSeparator(head: string, rest: string, sep: char)
    requires sep !in head
    ensures FirstSegment(head + [sep] + rest, sep) == head
  {
    var s := head + [sep] + rest;
    if head != [] {
      assert s[1..] == head[1..] + [sep] + rest;
      FirstSegmentBeforeSeparator(head[1..], rest, sep);
      assert head == [head[0]] + head[1..];
    }
  }

  /** `s` is `t` itself or ends with `sep` followed by `t`. */
  predicate EndsWithSegment(s: string, t: string, sep: char) {
    s == t || (|t| < |s| && s[|s| - |t|..] == t && s[|s| - |t| - 1] == sep)
  }

  /** For a separator-free `t`, the last segment of `s` is `t` exactly when
      `s` is `t` or ends with the separator followed by `t`. */
  lemma LastSegmentIsTheSegmentEnding(s: string, t: string, sep: char)
    requires sep !in t
    ensures EndsWithSegment(s, t, sep) <==> LastSegment(s, sep) == t
  {
    if s == t {
      WithoutSeparator(s, sep);
    } else if |t| < |s| && s[|s| - |t|..] == t && s[|s| - |t| - 1] == sep {
      var prefix := s[..|s| - |t| - 1];
      assert s == prefix + [sep] + t;
      LastSegmentAfterSeparator(prefix, t, sep);
    }
  }

  /** With no separator in `s`, both ends of the split are all of `s`. */
  lemma WithoutSeparator(s: string, sep: char)
    requires sep !in s
    ensures FirstSegment(s, sep) == s && LastSegment(s, sep) == s
  {
  }
}
