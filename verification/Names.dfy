/** Usernames and the relative paths a receiver is willing to create. */
module Names {

  import opened Bytes

  const MAX_USERNAME_LENGTH := 64
  const MAX_PATH_LENGTH := 1024
  const MAX_GROUP_MEMBERS: nat := 32
  const SLASH: byte := 47
  const BACKSLASH: byte := 92
  const DOT: byte := 46

  predicate NameByte(c: byte) { 97 <= c <= 122 || 48 <= c <= 57 || c == 45 || c == 95 || c == DOT }

  predicate ValidUsername(u: seq<byte>) {
    0 < |u| <= MAX_USERNAME_LENGTH && (forall i :: 0 <= i < |u| ==> NameByte(u[i])) && u[0] != DOT
  }

  method IsValidUsername(u: seq<byte>) returns (ok: bool)
    ensures ok <==> ValidUsername(u)
  {
    if |u| == 0 || |u| > MAX_USERNAME_LENGTH {
      return false;
    }
    var i := 0;
    while i < |u|
      invariant i <= |u| && forall j :: 0 <= j < i ==> NameByte(u[j])
    {
      if !NameByte(u[i]) {
        return false;
      }
      i := i + 1;
    }
    ok := u[0] != DOT;
  }

  // -- Paths ----------------------------------------------------------------

  /** Position of the first slash at or after `from`, or the end. */
  function NextSlash(path: seq<byte>, from: nat): (k: nat)
    requires from <= |path|
    ensures from <= k <= |path| && (k < |path| ==> path[k] == SLASH)
    ensures forall i :: from <= i < k ==> path[i] != SLASH
    decreases |path| - from
  {
    if from == |path| || path[from] == SLASH then from else NextSlash(path, from + 1)
  }

  predicate GoodComponent(c: seq<byte>) { c != [] && c != [DOT] && c != [DOT, DOT] }

  /** The path from `start` on is made of good components. */
  predicate GoodFrom(path: seq<byte>, start: nat)
    requires start <= |path|
    decreases |path| - start
  {
    var k := NextSlash(path, start);
    GoodComponent(path[start..k]) && (k < |path| ==> GoodFrom(path, k + 1))
  }

  predicate SafePath(path: seq<byte>) {
    && 0 < |path| <= MAX_PATH_LENGTH && path[0] != SLASH
    && BACKSLASH !in path && 0 !in path
    && GoodFrom(path, 0)
  }

  method IsSafeRelativePath(path: seq<byte>) returns (ok: bool)
    ensures ok <==> SafePath(path)
  {
    if |path| == 0 || |path| > MAX_PATH_LENGTH || path[0] == SLASH || BACKSLASH in path || 0 in path {
      return false;
    }
    var start := 0;
    while true
      invariant start <= |path| && (GoodFrom(path, 0) <==> GoodFrom(path, start))
      decreases |path| - start
    {
      var k := NextSlash(path, start);
      if !GoodComponent(path[start..k]) {
        return false;
      }
      if k == |path| {
        return true;
      }
      start := k + 1;
    }
  }

  /**
   * What the components mean: walking a safe path down from a directory never
   * leaves it. `Depth` counts how far below the directory the walk is.
   */
  function Depth(path: seq<byte>, start: nat, depth: int): seq<int>
    requires start <= |path|
    decreases |path| - start
  {
    var k := NextSlash(path, start);
    var component := path[start..k];
    var here := if component == [] || component == [DOT] then depth
                else if component == [DOT, DOT] then depth - 1
                else depth + 1;
    [here] + if k < |path| then Depth(path, k + 1, here) else []
  }

  lemma GoodGoesDown(path: seq<byte>, start: nat, depth: nat)
    requires start <= |path| && GoodFrom(path, start)
    ensures var k := NextSlash(path, start);
            && Depth(path, start, depth) == [depth + 1] + (if k < |path| then Depth(path, k + 1, depth + 1) else [])
            && (k < |path| ==> GoodFrom(path, k + 1))
  {
  }

  lemma {:induction false} GoodStaysBelow(path: seq<byte>, start: nat, depth: nat)
    requires start <= |path| && GoodFrom(path, start)
    ensures forall d <- Depth(path, start, depth) :: d > depth
    decreases |path| - start
  {
    hide Depth, GoodFrom;
    GoodGoesDown(path, start, depth);
    var k := NextSlash(path, start);
    if k < |path| {
      GoodStaysBelow(path, k + 1, depth + 1);
    }
  }

  /** Every directory a safe path passes through lies strictly inside the output directory. */
  lemma SafePathStaysBelow(path: seq<byte>)
    requires SafePath(path)
    ensures forall d <- Depth(path, 0, 0) :: d > 0
  {
    GoodStaysBelow(path, 0, 0);
  }
}
