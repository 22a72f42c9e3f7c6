/** String helpers the configuration derivations rely on: joining a list with a
    separator (as a slice's `join` does), its inverse, splitting at a separator
    character, and the last segment of a path (a path's file name). */
module Strings {

  /** `parts` joined with `sep` between consecutive elements; the empty list
      joins to the empty string and a single part to itself. `SplitJoin` states
      what the result means: splitting it gives the parts back. */
  function Join(sep: string, parts: seq<string>): (joined: string)
  {
    if |parts| == 0 then ""
    else if |parts| == 1 then parts[0]
    else Join(sep, parts[..|parts| - 1]) + sep + parts[|parts| - 1]
  }

  /** The pieces of `s` between occurrences of `sep`, in order; a string without
      `sep` is one piece, so the empty string splits to `[""]`. It is the
      inverse of `Join` (see `SplitJoin`). */
  function Split(s: string, sep: char): (pieces: seq<string>)
    ensures |pieces| >= 1
  {
    if |s| == 0 then [""]
    else
      var rest := Split(s[..|s| - 1], sep);
      var last := s[|s| - 1];
      if last == sep then rest + [""]
      else rest[..|rest| - 1] + [rest[|rest| - 1] + [last]]
  }

  /** The text after the last `sep` in `s` (all of `s` when it has none): the
      file name of a URL whose path ends in a file. */
  function LastSegment(s: string, sep: char): (name: string)
    ensures sep !in name
    ensures |name| <= |s| && s[|s| - |name|..] == name
    ensures |name| < |s| ==> s[|s| - |name| - 1] == sep
  {
    if |s| == 0 || s[|s| - 1] == sep then ""
    else
      var init := s[..|s| - 1];
      var prev := LastSegment(init, sep);
      assert s[|s| - |prev| - 1..] == init[|init| - |prev|..] + [s[|s| - 1]];
      prev + [s[|s| - 1]]
  }

  /** The last segment of `prefix + sep + tail` is `tail` when `tail` has no
      separator, whatever `prefix` is. */
  lemma {:induction false} LastSegmentAfter(prefix: string, sep: char, tail: string)
    requires sep !in tail
    ensures LastSegment(prefix + [sep] + tail, sep) == tail
  {
    var s := prefix + [sep] + tail;
    if |tail| > 0 {
      var shorter := tail[..|tail| - 1];
      LastSegmentAfter(prefix, sep, shorter);
      assert s[..|s| - 1] == prefix + [sep] + shorter;
      assert shorter + [tail[|tail| - 1]] == tail;
    }
  }

  /** A string without the separator does not split. */
  lemma {:induction false} SplitWithoutSeparator(s: string, sep: char)
    requires sep !in s
    ensures Split(s, sep) == [s]
  {
    if |s| > 0 {
      SplitWithoutSeparator(s[..|s| - 1], sep);
      assert s[..|s| - 1] + [s[|s| - 1]] == s;
    }
  }

  /** Splitting `prefix + sep + tail`, where `tail` has no separator, splits
      `prefix` and appends `tail` as the final piece. */
  lemma {:induction false} SplitAppend(prefix: string, sep: char, tail: string)
    requires sep !in tail
    ensures Split(prefix + [sep] + tail, sep) == Split(prefix, sep) + [tail]
  {
    var s := prefix + [sep] + tail;
    if |tail| == 0 {
      assert s[..|s| - 1] == prefix;
    } else {
      var shorter := tail[..|tail| - 1];
      SplitAppend(prefix, sep, shorter);
      assert s[..|s| - 1] == prefix + [sep] + shorter;
      assert shorter + [tail[|tail| - 1]] == tail;
    }
  }

  /** Splitting undoes joining, as long as no part contains the separator and
      the list is not empty (the empty list and `[""]` both join to `""`). */
  lemma {:induction false} SplitJoin(sep: char, parts: seq<string>)
    requires |parts| >= 1
    requires forall k :: 0 <= k < |parts| ==> sep !in parts[k]
    ensures Split(Join([sep], parts), sep) == parts
  {
    if |parts| == 1 {
      SplitWithoutSeparator(parts[0], sep);
    } else {
      var init := parts[..|parts| - 1];
      SplitJoin(sep, init);
      SplitAppend(Join([sep], init), sep, parts[|parts| - 1]);
      assert init + [parts[|parts| - 1]] == parts;
    }
  }
}
