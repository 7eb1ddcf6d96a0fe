/**
  Slash-separated paths as sequences of segments.

  The proxy builds its paths with Node's POSIX `path.join`. For segments that are
  non-empty, free of `/` and not `.` or `..`, that join is plain concatenation of
  the segment sequences, rendered with `/` between neighbours: `RenderAppend`
  states exactly that, and `SplitRender` shows the rendered string still
  determines the segments.
*/
module Paths {
  import opened Text

  /** A segment on which `path.join` does no normalisation. */
  predicate PlainSegment(s: string)
  {
    s != "" && s != "." && s != ".." && Avoids(s, {'/'})
  }

  predicate AllPlain(segs: seq<string>)
  {
    forall i :: 0 <= i < |segs| ==> PlainSegment(segs[i])
  }

  /** The segments written out with `/` between neighbours (a relative path). */
  function Render(segs: seq<string>): string
    decreases |segs|
  {
    if |segs| == 0 then ""
    else if |segs| == 1 then segs[0]
    else segs[0] + "/" + Render(segs[1..])
  }

  /** A rendered path starts with the first character of its first segment. */
  lemma RenderHead(segs: seq<string>)
    requires |segs| > 0 && segs[0] != ""
    ensures Render(segs) != "" && Render(segs)[0] == segs[0][0]
  {
    if |segs| > 1 {
      assert Render(segs) == segs[0] + ("/" + Render(segs[1..]));
    }
  }

  /** The segments written out each behind a `/` (an absolute path). */
  function AbsPath(segs: seq<string>): string
    decreases |segs|
  {
    if |segs| == 0 then "" else "/" + segs[0] + AbsPath(segs[1..])
  }

  /** Cuts a string at every `/`; the reference inverse of `Render`. */
  function Split(s: string): (r: seq<string>)
    ensures |r| > 0
    decreases |s|
  {
    var i := IndexOfAny(s, {'/'});
    if i == |s| then [s] else [s[..i]] + Split(s[i + 1..])
  }

  /** Joining two non-empty paths is concatenating their segment sequences. */
  lemma {:induction false} RenderAppend(a: seq<string>, b: seq<string>)
    requires |a| > 0 && |b| > 0
    ensures Render(a + b) == Render(a) + "/" + Render(b)
    decreases |a|
  {
    if |a| == 1 {
      assert (a + b)[1..] == b;
    } else {
      assert (a + b)[1..] == a[1..] + b;
      RenderAppend(a[1..], b);
    }
  }

  /** A rendered path splits back into the segments it was built from. */
  lemma {:induction false} SplitRender(segs: seq<string>)
    requires |segs| > 0
    requires forall i :: 0 <= i < |segs| ==> Avoids(segs[i], {'/'})
    ensures Split(Render(segs)) == segs
    decreases |segs|
  {
    var head := segs[0];
    if |segs| == 1 {
      IndexOfAnyAfter(head, "", {'/'});
      assert head + "" == head;
    } else {
      var tail := Render(segs[1..]);
      var s := head + ("/" + tail);
      assert Render(segs) == s;
      assert IndexOfAny(s, {'/'}) == |head| by {
        IndexOfAnyAfter(head, "/" + tail, {'/'});
      }
      assert s[..|head|] == head && s[|head| + 1..] == tail;
      assert Split(s) == [head] + Split(tail);
      SplitRender(segs[1..]);
      assert segs == [head] + segs[1..];
    }
  }

  /** A leading `/` turns a relative rendering into the absolute one. */
  lemma {:induction false} SlashRender(segs: seq<string>)
    requires |segs| > 0
    ensures "/" + Render(segs) == AbsPath(segs)
    decreases |segs|
  {
    if |segs| > 1 {
      SlashRender(segs[1..]);
    }
  }

  lemma {:induction false} AbsPathAppend(a: seq<string>, b: seq<string>)
    ensures AbsPath(a + b) == AbsPath(a) + AbsPath(b)
    decreases |a|
  {
    if |a| == 0 {
      assert a + b == b;
    } else {
      assert (a + b)[1..] == a[1..] + b;
      AbsPathAppend(a[1..], b);
    }
  }

  /** The rendering is empty only for no segments or a single empty one. */
  lemma {:induction false} RenderEmpty(segs: seq<string>)
    ensures Render(segs) == "" <==> |segs| == 0 || (|segs| == 1 && segs[0] == "")
  {
    if |segs| > 1 {
      assert |Render(segs)| >= 1;
    }
  }
}
