// The string operations the source uses: `split('\n')`, `join('\n')`,
// `includes`, `startsWith` and `endsWith`.
module Strings {

  const Newline: char := '\n'

  /** `s.split('\n')`: never empty, and "" splits into [""]. */
  function Split(s: string): (lines: seq<string>)
    ensures |lines| >= 1
    ensures forall k :: 0 <= k < |lines| ==> Newline !in lines[k]
    decreases |s|
  {
    if s == [] then [""]
    else if s[0] == Newline then [""] + Split(s[1..])
    else
      var rest := Split(s[1..]);
      [[s[0]] + rest[0]] + rest[1..]
  }

  /** `lines.join('\n')`: [] joins into "". */
  function Join(lines: seq<string>): string {
    if lines == [] then ""
    else if |lines| == 1 then lines[0]
    else lines[0] + [Newline] + Join(lines[1..])
  }

  /** Splitting and joining again gives the original string back. */
  lemma {:induction false} JoinSplit(s: string)
    ensures Join(Split(s)) == s
    decreases |s|
  {
    if s == [] {
    } else if s[0] == Newline {
      JoinSplit(s[1..]);
      assert s == [Newline] + s[1..];
    } else {
      var rest := Split(s[1..]);
      JoinSplit(s[1..]);
      if |rest| == 1 {
        assert Split(s) == [[s[0]] + rest[0]];
      } else {
        assert Split(s)[1..] == rest[1..];
        assert Join(Split(s)) == [s[0]] + rest[0] + [Newline] + Join(rest[1..]);
        assert Join(rest) == rest[0] + [Newline] + Join(rest[1..]);
      }
      assert s == [s[0]] + s[1..];
    }
  }

  /** Joining lines that hold no newline and splitting again gives the lines back. */
  lemma {:induction false} SplitJoin(lines: seq<string>)
    requires |lines| >= 1
    requires forall k :: 0 <= k < |lines| ==> Newline !in lines[k]
    ensures Split(Join(lines)) == lines
    decreases |lines|, |lines[0]|
  {
    var first := lines[0];
    if first == [] {
      if |lines| == 1 {
      } else {
        SplitJoin(lines[1..]);
        assert Join(lines) == [Newline] + Join(lines[1..]);
        assert Join(lines)[1..] == Join(lines[1..]);
      }
    } else {
      assert first[0] != Newline by { assert first[0] in lines[0]; }
      var shorter := [first[1..]] + lines[1..];
      assert forall k :: 0 <= k < |shorter| ==> Newline !in shorter[k] by {
        forall k | 0 <= k < |shorter| ensures Newline !in shorter[k] {
          if k == 0 {
            assert forall c :: c in first[1..] ==> c in first;
          } else {
            assert shorter[k] == lines[k];
          }
        }
      }
      SplitJoin(shorter);
      if |lines| == 1 {
        assert Join(lines) == first;
        assert Join(shorter) == first[1..];
      } else {
        assert Join(lines) == first + [Newline] + Join(lines[1..]);
        assert Join(shorter) == first[1..] + [Newline] + Join(lines[1..]);
      }
      assert Join(lines)[0] == first[0];
      assert Join(lines)[1..] == Join(shorter);
      assert [first[0]] + first[1..] == first;
    }
  }

  /** Joining a leading run of lines gives a prefix of joining all of them. */
  lemma {:induction false} JoinPrefix(lines: seq<string>, k: nat)
    requires k <= |lines|
    ensures Join(lines[..k]) <= Join(lines)
    decreases k
  {
    if k == 0 {
    } else if k == 1 {
      assert lines[..1] == [lines[0]];
    } else {
      JoinPrefix(lines[1..], k - 1);
      assert lines[..k][1..] == lines[1..][..k - 1];
      assert Join(lines[..k]) == lines[0] + [Newline] + Join(lines[1..][..k - 1]);
    }
  }

  /** `hay.includes(needle)` */
  predicate Contains(hay: string, needle: string)
    decreases |hay|
  {
    needle <= hay || (hay != [] && Contains(hay[1..], needle))
  }

  /** `s.startsWith(prefix)` */
  predicate StartsWith(s: string, prefix: string) {
    prefix <= s
  }

  /** `s.endsWith(suffix)` */
  predicate EndsWith(s: string, suffix: string) {
    |suffix| <= |s| && s[|s| - |suffix|..] == suffix
  }

  /** `s.substring(start)` for a start that is not negative. */
  function Substring(s: string, start: nat): (r: string)
    ensures |s| <= start ==> r == ""
    ensures start < |s| ==> s == s[..start] + r
  {
    if |s| <= start then "" else s[start..]
  }
}
