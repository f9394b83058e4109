/**
 * String helpers with the exact behaviour of JavaScript's `Array.prototype.join`
 * and `String.prototype.split` on a one-character separator, and the
 * "last `/`-separated segment" idiom `path.split("/").slice(-1)[0]` that the
 * monitor uses to turn a video path into a file name.
 */
module Text {

  /** `parts.join(sep)`: the empty list joins to the empty string. */
  function Join(parts: seq<string>, sep: string): string
  {
    if |parts| == 0 then []
    else if |parts| == 1 then parts[0]
    else parts[0] + sep + Join(parts[1..], sep)
  }

  /**
   * `s.split(c)`: the pieces between occurrences of `c`. There is always at
   * least one piece (`"".split("/")` is `[""]`), and no piece contains `c`.
   */
  function Split(s: string, c: char): (parts: seq<string>)
    ensures |parts| >= 1
    ensures forall i :: 0 <= i < |parts| ==> c !in parts[i]
  {
    if s == [] then [[]]
    else
      var rest := Split(s[1..], c);
      if s[0] == c then [[]] + rest
      else [[s[0]] + rest[0]] + rest[1..]
  }

  /** `path.split("/").slice(-1)[0]`: the last piece of the path. */
  function LastSegment(path: string): string
  {
    var parts := Split(path, '/');
    parts[|parts| - 1]
  }

  /**
   * The last segment is the longest suffix of the path that holds no `/`; it
   * is the whole path when the path has no `/`.
   */
  lemma LastSegmentSuffix(path: string)
    ensures var seg := LastSegment(path);
            && '/' !in seg
            && |seg| <= |path| && path[|path| - |seg|..] == seg
            && (|seg| < |path| ==> path[|path| - |seg| - 1] == '/')
            && ('/' !in path ==> seg == path)
  {
    SplitLast(path, '/');
  }

  /** The last piece of a split is the suffix after the last separator. */
  lemma {:induction false} SplitLast(s: string, c: char)
    ensures var parts := Split(s, c);
            var last := parts[|parts| - 1];
            |last| <= |s| && s[|s| - |last|..] == last &&
            (|last| < |s| ==> s[|s| - |last| - 1] == c)
  {
    if s != [] {
      SplitLast(s[1..], c);
      var rest := Split(s[1..], c);
      var parts := Split(s, c);
      if s[0] == c || |rest| > 1 {
        var last := rest[|rest| - 1];
        assert parts[|parts| - 1] == last;
        if |last| == |s| - 1 && s[0] != c {
          // the whole tail would be one separator-free piece
          assert s[1..] == last;
          SplitWithoutSeparator(s[1..], c);
          assert false;
        }
      } else {
        JoinSplit(s[1..], c);
        assert parts == [[s[0]] + rest[0]];
        assert parts[0] == s;
      }
    }
  }

  /** Joining the pieces of a split with the separator gives back the string. */
  lemma {:induction false} JoinSplit(s: string, c: char)
    ensures Join(Split(s, c), [c]) == s
  {
    if s != [] {
      JoinSplit(s[1..], c);
      var rest := Split(s[1..], c);
      if s[0] == c {
        assert Split(s, c)[1..] == rest;
      } else if |rest| > 1 {
        var parts := Split(s, c);
        assert parts[1..] == rest[1..];
        assert Join(rest, [c]) == rest[0] + [c] + Join(rest[1..], [c]);
        assert s == [s[0]] + s[1..];
      } else {
        assert s == [s[0]] + s[1..];
      }
    }
  }

  /** A string without the separator splits into itself. */
  lemma {:induction false} SplitWithoutSeparator(a: string, c: char)
    requires c !in a
    ensures Split(a, c) == [a]
  {
    if a != [] {
      SplitWithoutSeparator(a[1..], c);
      assert a == [a[0]] + a[1..];
    }
  }

  /** A separator after a separator-free prefix ends the first piece. */
  lemma {:induction false} SplitAtSeparator(a: string, c: char, b: string)
    requires c !in a
    ensures Split(a + [c] + b, c) == [a] + Split(b, c)
  {
    var s := a + [c] + b;
    if a == [] {
      assert s[1..] == b;
    } else {
      assert s[1..] == a[1..] + [c] + b;
      SplitAtSeparator(a[1..], c, b);
      assert a == [a[0]] + a[1..];
    }
  }

  /**
   * Splitting a join of separator-free pieces gives back the pieces: `join`
   * and `split` are inverse on the strings `split` can produce.
   */
  lemma {:induction false} SplitJoin(parts: seq<string>, c: char)
    requires |parts| >= 1
    requires forall i :: 0 <= i < |parts| ==> c !in parts[i]
    ensures Split(Join(parts, [c]), c) == parts
  {
    if |parts| == 1 {
      SplitWithoutSeparator(parts[0], c);
    } else {
      SplitJoin(parts[1..], c);
      SplitAtSeparator(parts[0], c, Join(parts[1..], [c]));
      assert parts == [parts[0]] + parts[1..];
    }
  }
}
