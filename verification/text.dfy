/**
 * The string operations the handlers rely on: lower-casing (`str.lower`) and
 * splitting on a separator character (`str.split`), with the lemmas that pin
 * down what the last piece of a split is.
 */
module Text {

  predicate IsUpper(c: char) {
    'A' <= c <= 'Z'
  }

  function LowerChar(c: char): (d: char)
    ensures !IsUpper(d)
    ensures IsUpper(c) ==> d as int == c as int + 32
    ensures !IsUpper(c) ==> d == c
  {
    if IsUpper(c) then (c as int + 32) as char else c
  }

  /** `s.lower()` on the ASCII range. */
  function Lower(s: string): (r: string)
    ensures |r| == |s|
    ensures forall i :: 0 <= i < |r| ==> !IsUpper(r[i])
    ensures forall i :: 0 <= i < |s| && !IsUpper(s[i]) ==> r[i] == s[i]
    ensures forall i :: 0 <= i < |s| && IsUpper(s[i]) ==> r[i] as int == s[i] as int + 32
  {
    seq(|s|, i requires 0 <= i < |s| => LowerChar(s[i]))
  }

  /**
   * `s.split(sep)`: the pieces of `s` between occurrences of `sep`. There is
   * always at least one piece, and exactly one when `sep` does not occur.
   */
  function Split(s: string, sep: char): (parts: seq<string>)
    ensures |parts| >= 1
    ensures |parts| == 1 <==> sep !in s
    decreases |s|
  {
    if s == [] then [""]
    else
      var rest := Split(s[1..], sep);
      if s[0] == sep then [""] + rest
      else [[s[0]] + rest[0]] + rest[1..]
  }

  /** Rejoins pieces with `sep` between them (`sep.join(parts)`). */
  function Join(parts: seq<string>, sep: char): string
    requires |parts| >= 1
    decreases |parts|
  {
    if |parts| == 1 then parts[0] else parts[0] + [sep] + Join(parts[1..], sep)
  }

  /** Splitting loses nothing: joining the pieces gives the string back, and no piece holds the separator. */
  lemma {:induction false} SplitJoin(s: string, sep: char)
    ensures Join(Split(s, sep), sep) == s
    ensures forall k :: 0 <= k < |Split(s, sep)| ==> sep !in Split(s, sep)[k]
    decreases |s|
  {
    if s != [] {
      var rest := Split(s[1..], sep);
      SplitJoin(s[1..], sep);
      if s[0] == sep {
        assert Split(s, sep)[1..] == rest;
      } else {
        var parts := Split(s, sep);
        if |rest| == 1 {
          assert parts == [[s[0]] + rest[0]];
          assert [s[0]] + s[1..] == s;
        } else {
          assert parts[1..] == rest[1..];
          assert Join(rest, sep) == rest[0] + [sep] + Join(rest[1..], sep);
          assert Join(parts, sep) == [s[0]] + rest[0] + [sep] + Join(rest[1..], sep);
          assert [s[0]] + s[1..] == s;
        }
        forall k | 0 <= k < |parts| ensures sep !in parts[k] {
          if k > 0 {
            assert parts[k] == rest[k];
          }
        }
      }
    }
  }

  /**
   * The last piece of `s.split(sep)` is the suffix of `s` after the last
   * `sep`, or the whole of `s` when `sep` does not occur.
   */
  lemma {:induction false} LastPiece(s: string, sep: char)
    ensures var parts := Split(s, sep);
            var last := parts[|parts| - 1];
            sep !in last && |last| <= |s| && s[|s| - |last|..] == last &&
            (sep in s ==> |last| < |s| && s[|s| - |last| - 1] == sep) &&
            (sep !in s ==> last == s)
    decreases |s|
  {
    if s != [] {
      var rest := Split(s[1..], sep);
      LastPiece(s[1..], sep);
      var parts := Split(s, sep);
      var lastRest := rest[|rest| - 1];
      if s[0] == sep {
        assert parts[|parts| - 1] == lastRest;
        assert s[1..][|s| - 1 - |lastRest|..] == s[|s| - |lastRest|..];
        if sep !in s[1..] {
          assert s[|s| - |lastRest| - 1] == s[0];
        } else {
          assert s[1..][|s| - 1 - |lastRest| - 1] == s[|s| - |lastRest| - 1];
        }
      } else if |rest| == 1 {
        assert sep !in s[1..];
        assert parts[|parts| - 1] == [s[0]] + s[1..] == s;
        assert sep !in s by {
          assert forall i :: 0 < i < |s| ==> s[i] == s[1..][i - 1];
        }
      } else {
        assert parts[|parts| - 1] == lastRest;
        assert sep in s[1..];
        assert s[1..][|s| - 1 - |lastRest|..] == s[|s| - |lastRest|..];
        assert s[1..][|s| - 1 - |lastRest| - 1] == s[|s| - |lastRest| - 1];
      }
    }
  }
}
