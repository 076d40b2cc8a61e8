/**
 * computeRootPath of the test executable: starting from the executable's own
 * path, step back over six folders and return what is left, followed by a
 * backslash.
 *
 * The C++ code keeps the search window's length in an int, rpos, and feeds it
 * through std::string's size_t interface; this model writes that traffic out:
 *   - substr(0, rpos) with a negative rpos converts to a huge size_t and so
 *     keeps the whole string; a non-negative rpos is clamped to the length;
 *   - find_last_of returns npos when there is no separator, and npos - 1
 *     narrowed to int is -2; a separator at 0 gives 0 - 1, narrowed to -1.
 * GetModuleFileNameA becomes the parameter: the buffer's text, shorter than
 * MAX_PATH because the buffer keeps room for its terminating NUL.
 */
module RootPath {
  import opened Wrappers

  const MaxPath: int := 260
  const FoldersToMove: nat := 6

  /** The characters find_last_of("\\/") looks for. */
  predicate IsSeparator(c: char) { c == '\\' || c == '/' }

  /** std::string::find_last_of("\\/"): the last separator's index, None standing for npos. */
  function FindLastOf(s: string): (r: Option<nat>)
    ensures r.Some? ==> r.value < |s| && IsSeparator(s[r.value])
    ensures r.Some? ==> forall i :: r.value < i < |s| ==> !IsSeparator(s[i])
    ensures r.None? <==> forall i :: 0 <= i < |s| ==> !IsSeparator(s[i])
  {
    if s == [] then None
    else if IsSeparator(s[|s| - 1]) then Some(|s| - 1)
    else FindLastOf(s[..|s| - 1])
  }

  /** string(path).substr(0, rpos) for an int rpos converted to size_t. */
  function Window(s: string, rpos: int): (w: string)
    ensures rpos < 0 || rpos >= |s| ==> w == s
    ensures 0 <= rpos < |s| ==> w == s[..rpos]
  {
    if rpos < 0 then s else s[..if rpos < |s| then rpos else |s|]
  }

  /** One step of the loop: find_last_of in the current window, minus one, narrowed to int. */
  function NextRpos(s: string, rpos: int): int
  {
    match FindLastOf(Window(s, rpos))
    case None => -2
    case Some(p) => p - 1
  }

  /** rpos after n steps of the loop, from the initial MAX_PATH. */
  function Walk(s: string, n: nat): int
  {
    if n == 0 then MaxPath else NextRpos(s, Walk(s, n - 1))
  }

  /** The root path computeRootPath returns for the module path s. */
  function RootPathOf(s: string): string
  {
    Window(s, Walk(s, FoldersToMove) + 1) + "\\"
  }

  method ComputeRootPath(pathBuffer: string) returns (root: string)
    requires |pathBuffer| < MaxPath
    ensures root == RootPathOf(pathBuffer)
    ensures |root| > 0 && root[|root| - 1] == '\\'
    ensures root[..|root| - 1] <= pathBuffer
  {
    var rpos: int := MaxPath;
    for i := 0 to FoldersToMove
      invariant rpos == Walk(pathBuffer, i)
    {
      var found := FindLastOf(Window(pathBuffer, rpos));
      if found.None? {
        rpos := -2;
      } else {
        rpos := found.value - 1;
      }
    }
    rpos := rpos + 1;
    root := Window(pathBuffer, rpos) + "\\";
    assert root[..|root| - 1] == Window(pathBuffer, rpos);
  }

  // ---------------------------------------------------------------------------
  // Counting separators
  // ---------------------------------------------------------------------------

  function SepCount(s: string): nat
  {
    if s == [] then 0
    else SepCount(s[..|s| - 1]) + (if IsSeparator(s[|s| - 1]) then 1 else 0)
  }

  lemma {:induction false} SepCountAppend(a: string, b: string)
    ensures SepCount(a + b) == SepCount(a) + SepCount(b)
  {
    if b != [] {
      assert (a + b)[..|a + b| - 1] == a + b[..|b| - 1];
      SepCountAppend(a, b[..|b| - 1]);
    } else {
      assert a + b == a;
    }
  }

  lemma {:induction false} NoSeparatorsCountZero(s: string)
    requires forall i :: 0 <= i < |s| ==> !IsSeparator(s[i])
    ensures SepCount(s) == 0
  {
    if s != [] {
      NoSeparatorsCountZero(s[..|s| - 1]);
    }
  }

  /** A separator at p splits the count into the part before, itself and the part after. */
  lemma SplitAtSeparator(s: string, p: nat)
    requires p < |s| && IsSeparator(s[p])
    ensures SepCount(s) == SepCount(s[..p]) + 1 + SepCount(s[p + 1..])
  {
    assert s == s[..p] + [s[p]] + s[p + 1..];
    SepCountAppend(s[..p] + [s[p]], s[p + 1..]);
    SepCountAppend(s[..p], [s[p]]);
    assert [s[p]][..0] == [];
  }

  /** The separator find_last_of reports is the last one counted. */
  lemma FoundLastCounted(s: string, q: nat)
    requires FindLastOf(s) == Some(q)
    ensures SepCount(s[..q]) + 1 == SepCount(s)
  {
    SplitAtSeparator(s, q);
    NoSeparatorsCountZero(s[q + 1..]);
  }

  /** No two separators next to each other. */
  predicate NoAdjacentSeparators(s: string)
  {
    forall i :: 0 < i < |s| && IsSeparator(s[i]) ==> !IsSeparator(s[i - 1])
  }

  // ---------------------------------------------------------------------------
  // What the loop computes
  // ---------------------------------------------------------------------------

  /** The first window is the whole path: substr clamps MAX_PATH to the length. */
  lemma FirstWindowWhole(s: string)
    requires |s| < MaxPath
    ensures Window(s, Walk(s, 0)) == s
  {
  }

  /** A separator found at p >= 1 starts a strictly shorter window: [0, p - 1). */
  lemma WindowShrinks(s: string, rpos: int)
    requires FindLastOf(Window(s, rpos)).Some? && FindLastOf(Window(s, rpos)).value >= 1
    ensures Window(s, NextRpos(s, rpos)) == Window(s, rpos)[..FindLastOf(Window(s, rpos)).value - 1]
    ensures |Window(s, NextRpos(s, rpos))| < |Window(s, rpos)|
  {
  }

  /** With a separator somewhere in the window, find_last_of reports one. */
  lemma {:induction false} CountedFound(w: string)
    requires SepCount(w) >= 1
    ensures FindLastOf(w).Some?
  {
    if FindLastOf(w).None? {
      NoSeparatorsCountZero(w);
    }
  }

  /** The first step finds the last separator of the whole path. */
  lemma FirstStep(s: string)
    requires |s| < MaxPath && SepCount(s) >= 1
    ensures var r := NextRpos(s, MaxPath);
      0 <= r + 1 < |s| && IsSeparator(s[r + 1]) && SepCount(s[..r + 1]) + 1 == SepCount(s)
  {
    assert Window(s, MaxPath) == s;
    CountedFound(s);
    FoundLastCounted(s, FindLastOf(s).value);
  }

  /**
   * A later step: rpos + 1 holds a separator with others before it, and the
   * next step finds the nearest of those, skipping s[rpos], which is none.
   */
  lemma NextStep(s: string, rpos: int)
    requires NoAdjacentSeparators(s)
    requires 0 <= rpos + 1 < |s| && IsSeparator(s[rpos + 1]) && SepCount(s[..rpos + 1]) >= 1
    ensures var r := NextRpos(s, rpos);
      0 <= r + 1 < rpos + 1 && IsSeparator(s[r + 1]) && SepCount(s[..r + 1]) + 1 == SepCount(s[..rpos + 1])
  {
    var p := rpos + 1;
    var w := s[..p - 1];
    assert Window(s, rpos) == w;
    assert s[..p] == w + [s[p - 1]];
    SepCountAppend(w, [s[p - 1]]);
    assert [s[p - 1]][..0] == [];
    CountedFound(w);
    var q := FindLastOf(w).value;
    FoundLastCounted(w, q);
    assert w[..q] == s[..q];
  }

  /**
   * With k <= SepCount(s) separators and none adjacent, step k has found the
   * k-th separator from the end, at position rpos + 1.
   */
  lemma {:induction false} WalkFindsNth(s: string, k: nat)
    requires |s| < MaxPath && NoAdjacentSeparators(s)
    requires 1 <= k <= SepCount(s)
    ensures 0 <= Walk(s, k) + 1 < |s|
    ensures IsSeparator(s[Walk(s, k) + 1])
    ensures SepCount(s[..Walk(s, k) + 1]) + k == SepCount(s)
  {
    if k == 1 {
      FirstStep(s);
    } else {
      WalkFindsNth(s, k - 1);
      NextStep(s, Walk(s, k - 1));
    }
  }

  /**
   * With at least six separators and none adjacent, the root path is the
   * path up to (not including) the sixth separator from the end, followed
   * by a backslash.
   */
  lemma SixthSeparatorFromEnd(s: string)
    requires |s| < MaxPath && NoAdjacentSeparators(s)
    requires SepCount(s) >= FoldersToMove
    ensures exists p :: 0 <= p < |s| && IsSeparator(s[p]) && SepCount(s[p + 1..]) == FoldersToMove - 1 &&
                        RootPathOf(s) == s[..p] + "\\"
  {
    WalkFindsNth(s, FoldersToMove);
    var p := Walk(s, FoldersToMove) + 1;
    SplitAtSeparator(s, p);
    assert RootPathOf(s) == Window(s, p) + "\\";
    assert Window(s, p) == s[..p];
    assert SepCount(s[p + 1..]) == FoldersToMove - 1;
  }

  /** In a path without separators every step finds nothing, and wraps round to -2. */
  lemma NoSeparatorsStep(s: string, rpos: int)
    requires forall i :: 0 <= i < |s| ==> !IsSeparator(s[i])
    ensures NextRpos(s, rpos) == -2
  {
    var w := Window(s, rpos);
    assert forall i :: 0 <= i < |w| ==> !IsSeparator(w[i]);
  }

  /** A path without separators is returned whole: every step wraps round to -2. */
  lemma NoSeparatorsWholePath(s: string)
    requires forall i :: 0 <= i < |s| ==> !IsSeparator(s[i])
    ensures forall n: nat :: n >= 1 ==> Walk(s, n) == -2
    ensures RootPathOf(s) == s + "\\"
  {
    forall n: nat | n >= 1
      ensures Walk(s, n) == -2
    {
      NoSeparatorsStep(s, Walk(s, n - 1));
    }
  }
}
