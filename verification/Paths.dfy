/**
 * Paths as their '/'-separated segments.
 */
module Paths {

  function Segments(path: string): (segments: seq<string>)
    ensures segments != []
  {
    if path == "" then [""]
    else
      WithFirst(path[0], Segments(path[1..]))
  }

  function Joined(segments: seq<string>): string
    requires segments != []
  {
    if |segments| == 1 then segments[0] else segments[0] + "/" + Joined(segments[1..])
  }

  lemma {:induction false} JoinedSegments(path: string)
    ensures Joined(Segments(path)) == path
  {
    if path == "" {
    } else {
      var rest := Segments(path[1..]);
      JoinedSegments(path[1..]);
      if path[0] == '/' {
        assert ([""] + rest)[1..] == rest;
      } else {
        var here := [[path[0]] + rest[0]] + rest[1..];
        assert here[1..] == rest[1..];
        assert Joined(here) == [path[0]] + Joined(rest);
      }
    }
  }

  // A path's segments, from its first character and the rest's.
  function WithFirst(c: char, rest: seq<string>): seq<string>
    requires rest != []
  {
    if c == '/' then [""] + rest else [[c] + rest[0]] + rest[1..]
  }

  lemma FirstChar(c: char, rest: seq<string>, more: seq<string>)
    requires rest != []
    ensures WithFirst(c, rest + more) == WithFirst(c, rest) + more
  {
    assert (rest + more)[0] == rest[0] && (rest + more)[1..] == rest[1..] + more;
  }

  lemma {:induction false} SegmentsOfJoin(a: string, b: string)
    ensures Segments(a + "/" + b) == Segments(a) + Segments(b)
  {
    if a == "" {
      assert a + "/" + b == "/" + b && ("/" + b)[1..] == b;
    } else {
      SegmentsOfJoin(a[1..], b);
      var all := a + "/" + b;
      assert all[1..] == a[1..] + "/" + b && all[0] == a[0];
      FirstChar(a[0], Segments(a[1..]), Segments(b));
    }
  }

  lemma {:induction false} JoinedAppend(xs: seq<string>, ys: seq<string>)
    requires xs != [] && ys != []
    ensures Joined(xs + ys) == Joined(xs) + "/" + Joined(ys)
  {
    if |xs| == 1 {
      assert (xs + ys)[1..] == ys;
    } else {
      JoinedAppend(xs[1..], ys);
      assert (xs + ys)[1..] == xs[1..] + ys;
      var x, y, z := xs[0] + "/", Joined(xs[1..]), Joined(ys);
      assert x + (y + "/" + z) == (x + y) + "/" + z;
    }
  }

  lemma {:induction false} SegmentsAreClean(path: string)
    ensures forall i :: 0 <= i < |Segments(path)| ==> '/' !in Segments(path)[i]
    ensures forall i, c :: 0 <= i < |Segments(path)| && c in Segments(path)[i] ==> c in path
  {
    if path == "" {
    } else {
      SegmentsAreClean(path[1..]);
      var rest := Segments(path[1..]);
      assert forall c :: c in path[1..] ==> c in path;
      if path[0] != '/' {
        var all := Segments(path);
        assert all[0] == [path[0]] + rest[0] && all[1..] == rest[1..];
      }
    }
  }

  lemma {:induction false} SegmentsOfClean(segment: string)
    requires '/' !in segment
    ensures Segments(segment) == [segment]
  {
    if segment == "" {
    } else {
      SegmentsOfClean(segment[1..]);
      assert [segment[0]] + segment[1..] == segment;
    }
  }

  lemma {:induction false} SegmentsOfJoined(segments: seq<string>)
    requires segments != [] && forall i :: 0 <= i < |segments| ==> '/' !in segments[i]
    ensures Segments(Joined(segments)) == segments
  {
    SegmentsOfClean(segments[0]);
    if |segments| <= 1 {
    } else {
      SegmentsOfJoined(segments[1..]);
      SegmentsOfJoin(segments[0], Joined(segments[1..]));
    }
  }

  lemma {:induction false} JoinedChars(segments: seq<string>)
    requires segments != []
    ensures forall c :: c in Joined(segments) ==> c == '/' || exists i :: 0 <= i < |segments| && c in segments[i]
  {
    if |segments| <= 1 {
    } else {
      JoinedChars(segments[1..]);
    }
  }
}
