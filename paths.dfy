/** The file-name extension that `os.path.splitext` (POSIX flavour) reports. */
module Paths {
  import opened Text

  /** Python's `s.rfind(c)`: the index of the last `c` in `s`, or -1. */
  function RFind(s: string, c: char): (i: int)
    ensures -1 <= i < |s|
    ensures i >= 0 ==> s[i] == c
    ensures forall k :: i < k < |s| ==> s[k] != c
  {
    if |s| == 0 then -1
    else if s[|s| - 1] == c then |s| - 1
    else RFind(s[..|s| - 1], c)
  }

  /** The second component of `os.path.splitext(p)`: from the last '.' on, provided that dot lies
      in the last path component and something other than dots precedes it there; otherwise "". */
  function Extension(p: string): (ext: string)
    ensures ext == [] || (ext[0] == '.' && EndsWith(p, ext))
    ensures forall k :: 1 <= k < |ext| ==> ext[k] != '.' && ext[k] != '/'
  {
    var sep := RFind(p, '/');
    var dot := RFind(p, '.');
    if dot > sep && exists k :: sep < k < dot && p[k] != '.' then p[dot..] else ""
  }

  /** A name with no dot has no extension. */
  lemma NoDotNoExtension(p: string)
    requires forall k :: 0 <= k < |p| ==> p[k] != '.'
    ensures Extension(p) == ""
  {
  }

  /** A file named `stem + "." + e` has the extension `"." + e`, whenever `e` holds no dot or slash,
      `stem` no slash, and `stem` is not made of dots only. */
  lemma ExtensionOfStem(stem: string, e: string)
    requires forall k :: 0 <= k < |e| ==> e[k] != '.' && e[k] != '/'
    requires forall k :: 0 <= k < |stem| ==> stem[k] != '/'
    requires exists k :: 0 <= k < |stem| && stem[k] != '.'
    ensures Extension(stem + "." + e) == "." + e
  {
    var p := stem + "." + e;
    var dot := |stem|;
    assert p[dot] == '.';
    assert forall k :: dot < k < |p| ==> p[k] == e[k - dot - 1];
    assert RFind(p, '.') == dot;
    assert forall k :: 0 <= k < |p| ==> p[k] != '/' by {
      forall k | 0 <= k < |p| ensures p[k] != '/' {
        if k < |stem| { assert p[k] == stem[k]; }
      }
    }
    assert RFind(p, '/') == -1;
    var j :| 0 <= j < |stem| && stem[j] != '.';
    assert p[j] == stem[j];
    assert p[dot..] == "." + e;
  }

  lemma {:induction false} RFindLower(s: string, c: char)
    requires c == '.' || c == '/'
    ensures RFind(Lower(s), c) == RFind(s, c)
    decreases |s|
  {
    if |s| > 0 {
      assert Lower(s)[..|s| - 1] == Lower(s[..|s| - 1]);
      RFindLower(s[..|s| - 1], c);
    }
  }

  /** Lower-casing a name and taking its extension commute. */
  lemma ExtensionOfLower(p: string)
    ensures Extension(Lower(p)) == Lower(Extension(p))
  {
    RFindLower(p, '.');
    RFindLower(p, '/');
    var sep := RFind(p, '/');
    var dot := RFind(p, '.');
    var lp := Lower(p);
    assert forall k :: 0 <= k < |p| ==> (lp[k] != '.' <==> p[k] != '.');
    if dot > sep && exists k :: sep < k < dot && p[k] != '.' {
      var k :| sep < k < dot && p[k] != '.';
      assert lp[k] != '.';
      assert lp[dot..] == Lower(p[dot..]);
    }
  }
}
