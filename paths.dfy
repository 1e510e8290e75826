/** The request path as the dispatcher sees it: JavaScript's `p.split('/')`
    and its inverse, joining segments with '/'. */
module Paths {

  /** A piece of a path between two separators. */
  predicate NoSlash(s: string) {
    '/' !in s
  }

  predicate AllNoSlash(segs: seq<string>) {
    forall k :: 0 <= k < |segs| ==> NoSlash(segs[k])
  }

  /** `s.split('/')`: the pieces between separators, in order. Like
      JavaScript, the empty string gives one empty piece and a leading or
      trailing '/' gives an empty first or last piece. */
  function Split(s: string): (r: seq<string>)
    ensures |r| >= 1
    ensures AllNoSlash(r)
  {
    if |s| == 0 then [""]
    else if s[0] == '/' then [""] + Split(s[1..])
    else
      var rest := Split(s[1..]);
      [[s[0]] + rest[0]] + rest[1..]
  }

  /** `segs.join('/')`. */
  function Join(segs: seq<string>): (r: string)
    requires |segs| >= 1
    decreases |segs|
  {
    if |segs| == 1 then segs[0] else segs[0] + "/" + Join(segs[1..])
  }

  /** A separator-free prefix stays glued to the first piece of the rest. */
  lemma {:induction false} SplitGluesPrefix(x: string, s: string)
    requires NoSlash(x)
    ensures Split(x + s) == [x + Split(s)[0]] + Split(s)[1..]
  {
    var r := Split(s);
    if x == [] {
      assert x + s == s;
      assert r == [r[0]] + r[1..];
      assert x + r[0] == r[0];
    } else {
      assert x[0] in x;
      assert (x + s)[0] == x[0] && x[0] != '/';
      assert (x + s)[1..] == x[1..] + s;
      SplitGluesPrefix(x[1..], s);
      var rest := Split(x[1..] + s);
      assert rest == [x[1..] + r[0]] + r[1..];
      assert rest[1..] == r[1..];
      assert [x[0]] + (x[1..] + r[0]) == x + r[0];
    }
  }

  /** Splitting undoes joining, when no segment holds a separator. */
  lemma {:induction false} SplitJoin(segs: seq<string>)
    requires |segs| >= 1 && AllNoSlash(segs)
    ensures Split(Join(segs)) == segs
    decreases |segs|
  {
    if |segs| == 1 {
      SplitGluesPrefix(segs[0], "");
      assert segs[0] + "" == segs[0];
    } else {
      var tail := Join(segs[1..]);
      SplitJoin(segs[1..]);
      assert Join(segs) == segs[0] + ("/" + tail);
      SplitGluesPrefix(segs[0], "/" + tail);
      assert ("/" + tail)[1..] == tail;
      assert Split("/" + tail) == [""] + segs[1..];
      assert segs[0] + "" == segs[0];
      assert ([""] + segs[1..])[1..] == segs[1..];
      assert segs == [segs[0]] + segs[1..];
    }
  }

  /** Joining undoes splitting: no character of the path is lost. */
  lemma {:induction false} JoinSplit(s: string)
    ensures Join(Split(s)) == s
  {
    if |s| == 0 {
    } else if s[0] == '/' {
      JoinSplit(s[1..]);
      assert Split(s)[1..] == Split(s[1..]);
    } else {
      var rest := Split(s[1..]);
      JoinSplit(s[1..]);
      var r := Split(s);
      assert r[0] == [s[0]] + rest[0];
      if |rest| == 1 {
        assert s == [s[0]] + s[1..];
      } else {
        assert r[1..] == rest[1..];
        assert Join(rest) == rest[0] + "/" + Join(rest[1..]);
        assert s == [s[0]] + s[1..];
      }
    }
  }

  /** A path equals a given join exactly when it splits into those segments. */
  lemma PathIsJoin(p: string, segs: seq<string>)
    requires |segs| >= 1 && AllNoSlash(segs)
    ensures p == Join(segs) <==> Split(p) == segs
  {
    if p == Join(segs) {
      SplitJoin(segs);
    }
    if Split(p) == segs {
      JoinSplit(p);
    }
  }
}
