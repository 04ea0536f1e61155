/**
 * Path strings and their '/'-separated components. The commands build paths
 * by string concatenation (`${folder}/${filename}`); the file system sees the
 * components.
 */
module Paths {

  /** The components of a path string: "recipes/Porter.xml" gives ["recipes", "Porter.xml"]. */
  function Segments(s: string): (r: seq<string>)
    ensures |r| >= 1
    ensures forall i :: 0 <= i < |r| ==> '/' !in r[i]
  {
    if s == [] then [""]
    else if s[0] == '/' then [""] + Segments(s[1..])
    else
      var rest := Segments(s[1..]);
      [[s[0]] + rest[0]] + rest[1..]
  }

  /** The path string with the given components. */
  function JoinSegments(segs: seq<string>): string
    requires |segs| >= 1
  {
    if |segs| == 1 then segs[0] else segs[0] + "/" + JoinSegments(segs[1..])
  }

  /** Joining two path strings with '/' concatenates their components. */
  lemma {:induction false} SegmentsOfSlashJoin(a: string, b: string)
    ensures Segments(a + "/" + b) == Segments(a) + Segments(b)
  {
    if a == [] {
      assert a + "/" + b == "/" + b;
      assert ("/" + b)[1..] == b;
    } else {
      assert (a + "/" + b)[0] == a[0];
      assert (a + "/" + b)[1..] == a[1..] + "/" + b;
      SegmentsOfSlashJoin(a[1..], b);
    }
  }

  /** A string without '/' is a single component. */
  lemma {:induction false} SegmentsOfName(s: string)
    requires '/' !in s
    ensures Segments(s) == [s]
  {
    if s != [] {
      assert '/' !in s[1..] by {
        forall i | 0 <= i < |s[1..]| ensures s[1..][i] != '/' { assert s[1..][i] == s[i + 1]; }
      }
      SegmentsOfName(s[1..]);
      assert [s[0]] + s[1..] == s;
    }
  }

  /** Splitting and joining are inverse: every path string is recovered from its components. */
  lemma {:induction false} JoinSegmentsOfSegments(s: string)
    ensures JoinSegments(Segments(s)) == s
  {
    if s != [] {
      JoinSegmentsOfSegments(s[1..]);
      var rest := Segments(s[1..]);
      if s[0] != '/' {
        if |rest| == 1 {
          assert [s[0]] + s[1..] == s;
        } else {
          assert JoinSegments([[s[0]] + rest[0]] + rest[1..]) == [s[0]] + rest[0] + "/" + JoinSegments(rest[1..]);
          assert [s[0]] + (rest[0] + "/" + JoinSegments(rest[1..])) == s;
        }
      } else {
        assert JoinSegments([""] + rest) == "" + "/" + JoinSegments(rest);
        assert "/" + s[1..] == s;
      }
    }
  }

  /** Components without '/' survive a join and a split unchanged. */
  lemma {:induction false} SegmentsOfJoinSegments(segs: seq<string>)
    requires |segs| >= 1
    requires forall i :: 0 <= i < |segs| ==> '/' !in segs[i]
    ensures Segments(JoinSegments(segs)) == segs
  {
    SegmentsOfName(segs[0]);
    if |segs| > 1 {
      SegmentsOfJoinSegments(segs[1..]);
      SegmentsOfSlashJoin(segs[0], JoinSegments(segs[1..]));
      assert [segs[0]] + segs[1..] == segs;
    }
  }
}
