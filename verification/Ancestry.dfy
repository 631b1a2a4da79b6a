/** The process cache and the walk along cached parent links. */
module Ancestry {
  import opened Wrappers
  import opened Kernel
  import opened ProcessHandles

  type ProcessCache = map<Pid, Option<Handle>>

  predicate Present(cache: ProcessCache, pid: Pid) {
    pid in cache && cache[pid].Some?
  }

  /** The link followed by iteration `i` of the walk from `x` that has collected `c`. */
  function Link(x: Handle, c: seq<Handle>, i: nat): Pid
    requires i <= |c|
  {
    if i == 0 then x.parentPid else c[i - 1].parentPid
  }

  /** The loop of `parents` has collected `c` after `|c|` iterations. */
  ghost predicate Collected(x: Handle, cache: ProcessCache, c: seq<Handle>) {
    forall i | 0 <= i < |c| :: Present(cache, Link(x, c, i)) && cache[Link(x, c, i)].value == c[i]
  }

  /** ... and then it stops. */
  ghost predicate Maximal(x: Handle, cache: ProcessCache, c: seq<Handle>) {
    Collected(x, cache, c) && !Present(cache, Link(x, c, |c|))
  }

  /** The walk from `x` comes to an end. */
  ghost predicate WalkEnds(x: Handle, cache: ProcessCache) {
    exists c :: Maximal(x, cache, c)
  }

  /** The ancestors of `x`: what `parents` returns when it returns. */
  ghost function Ancestors(x: Handle, cache: ProcessCache): (c: seq<Handle>)
    ensures WalkEnds(x, cache) ==> Maximal(x, cache, c)
  {
    if WalkEnds(x, cache) then
      var c :| Maximal(x, cache, c);
      c
    else []
  }

  // ---- the walk is deterministic

  lemma {:induction false} CollectedAgreeAt(x: Handle, cache: ProcessCache, c: seq<Handle>, d: seq<Handle>, i: nat)
    requires Collected(x, cache, c) && Collected(x, cache, d)
    requires i <= |c| && i <= |d|
    ensures Link(x, c, i) == Link(x, d, i)
    ensures i < |c| && i < |d| ==> c[i] == d[i]
  {
    if i > 0 {
      CollectedAgreeAt(x, cache, c, d, i - 1);
    }
  }

  lemma CollectedAgree(x: Handle, cache: ProcessCache, c: seq<Handle>, d: seq<Handle>, n: nat)
    requires Collected(x, cache, c) && Collected(x, cache, d)
    requires n <= |c| && n <= |d|
    ensures c[..n] == d[..n] && Link(x, c, n) == Link(x, d, n)
  {
    forall i | 0 <= i < n ensures c[i] == d[i] {
      CollectedAgreeAt(x, cache, c, d, i);
    }
    CollectedAgreeAt(x, cache, c, d, n);
  }

  /** Every run of the loop is a prefix of the one that ends. */
  lemma CollectedIsPrefix(x: Handle, cache: ProcessCache, c: seq<Handle>, m: seq<Handle>)
    requires Collected(x, cache, c) && Maximal(x, cache, m)
    ensures |c| <= |m| && c == m[..|c|]
  {
    if |c| <= |m| {
      CollectedAgree(x, cache, c, m, |c|);
      assert c[..|c|] == c;
    } else {
      CollectedAgree(x, cache, c, m, |m|);
      assert false;
    }
  }

  lemma MaximalUnique(x: Handle, cache: ProcessCache, c: seq<Handle>, d: seq<Handle>)
    requires Maximal(x, cache, c) && Maximal(x, cache, d)
    ensures c == d
  {
    CollectedIsPrefix(x, cache, c, d);
    CollectedIsPrefix(x, cache, d, c);
  }

  // ---- when it ends, and how long it is

  /** A walk that follows one link twice comes back to it for ever. */
  lemma {:induction false} RepeatedLinkRecurs(x: Handle, cache: ProcessCache, c: seq<Handle>, i: nat, j: nat, n: nat)
    requires Collected(x, cache, c) && i < j && j + n <= |c| && Link(x, c, i) == Link(x, c, j)
    ensures Link(x, c, i + n) == Link(x, c, j + n)
  {
    if n == 0 {
    } else {
      RepeatedLinkRecurs(x, cache, c, i, j, n - 1);
    }
  }

  /** The links of a walk that ends are pairwise different, the last, missing one included. */
  lemma LinksDistinct(x: Handle, cache: ProcessCache, c: seq<Handle>, i: nat, j: nat)
    requires Maximal(x, cache, c) && i < j <= |c|
    ensures Link(x, c, i) != Link(x, c, j)
  {
    if Link(x, c, i) == Link(x, c, j) {
      RepeatedLinkRecurs(x, cache, c, i, j, |c| - j);
      assert false;
    }
  }

  ghost function PresentPids(cache: ProcessCache): set<Pid> {
    set pid | pid in cache && cache[pid].Some?
  }

  lemma {:induction false} DistinctFits<T>(s: seq<T>, a: set<T>)
    requires forall i, j | 0 <= i < j < |s| :: s[i] != s[j]
    requires forall i | 0 <= i < |s| :: s[i] in a
    ensures |s| <= |a|
  {
    if s == [] {
    } else {
      var n := |s| - 1;
      DistinctFits(s[..n], a - {s[n]});
    }
  }

  /** No link is followed twice, so the result is no longer than the number of present entries. */
  lemma CollectedBound(x: Handle, cache: ProcessCache, c: seq<Handle>)
    requires Collected(x, cache, c)
    requires forall i, j | 0 <= i < j < |c| :: Link(x, c, i) != Link(x, c, j)
    ensures |c| <= |PresentPids(cache)|
  {
    DistinctFits(seq(|c|, i requires 0 <= i < |c| => Link(x, c, i)), PresentPids(cache));
  }

  lemma ExtendCollected(x: Handle, cache: ProcessCache, c: seq<Handle>)
    requires Collected(x, cache, c) && Present(cache, Link(x, c, |c|))
    ensures Collected(x, cache, c + [cache[Link(x, c, |c|)].value])
  {
    var d := c + [cache[Link(x, c, |c|)].value];
    forall i | 0 <= i < |d| ensures Present(cache, Link(x, d, i)) && cache[Link(x, d, i)].value == d[i] {
      assert Link(x, d, i) == Link(x, c, i);
    }
  }

  /** Somewhere on the walk from `x` a link is followed a second time. */
  ghost predicate ReachesCycle(x: Handle, cache: ProcessCache) {
    exists c, i: nat, j: nat :: Collected(x, cache, c) && i < j < |c| && Link(x, c, i) == Link(x, c, j)
  }

  lemma {:induction false} ExtendToEnd(x: Handle, cache: ProcessCache, c: seq<Handle>)
    requires Collected(x, cache, c) && !ReachesCycle(x, cache)
    ensures WalkEnds(x, cache)
    decreases |PresentPids(cache)| - |c|
  {
    if Present(cache, Link(x, c, |c|)) {
      var d := c + [cache[Link(x, c, |c|)].value];
      ExtendCollected(x, cache, c);
      CollectedBound(x, cache, d);
      ExtendToEnd(x, cache, d);
    } else {
      assert Maximal(x, cache, c);
    }
  }

  /** The walk ends exactly when it never meets a cycle of cached links. */
  lemma WalkEndsIff(x: Handle, cache: ProcessCache)
    ensures WalkEnds(x, cache) <==> !ReachesCycle(x, cache)
  {
    if ReachesCycle(x, cache) && WalkEnds(x, cache) {
      var c, i: nat, j: nat :| Collected(x, cache, c) && i < j < |c| && Link(x, c, i) == Link(x, c, j);
      var m := Ancestors(x, cache);
      CollectedIsPrefix(x, cache, c, m);
      assert Link(x, c, i) == Link(x, m, i) && Link(x, c, j) == Link(x, m, j);
      LinksDistinct(x, cache, m, i, j);
    }
    if !ReachesCycle(x, cache) {
      assert Collected(x, cache, []);
      ExtendToEnd(x, cache, []);
    }
  }

  /** Otherwise the loop is still running after any number of iterations. */
  lemma {:induction false} WalkNeverReturns(x: Handle, cache: ProcessCache, n: nat)
    requires ReachesCycle(x, cache)
    ensures exists c :: Collected(x, cache, c) && |c| == n && Present(cache, Link(x, c, n))
  {
    WalkEndsIff(x, cache);
    if n == 0 {
      assert Collected(x, cache, []) && !Maximal(x, cache, []);
    } else {
      WalkNeverReturns(x, cache, n - 1);
      var c :| Collected(x, cache, c) && |c| == n - 1 && Present(cache, Link(x, c, n - 1));
      var d := c + [cache[Link(x, c, n - 1)].value];
      ExtendCollected(x, cache, c);
      assert !Maximal(x, cache, d);
    }
  }

  /** Entries sit under their own pid. */
  ghost predicate Keyed(cache: ProcessCache) {
    forall pid | Present(cache, pid) :: cache[pid].value.pid == pid
  }

  /**
   `parents`. The source demands nothing, but from a handle that reaches a cycle
   it does not return; that case is `WalkNeverReturns`.
   */
  method Parents(x: Handle, cache: ProcessCache) returns (result: seq<Handle>)
    requires !ReachesCycle(x, cache)
    ensures Maximal(x, cache, result) && result == Ancestors(x, cache)
    ensures |result| <= |PresentPids(cache)|
    ensures Keyed(cache) ==> forall i, j | 0 <= i < j < |result| :: result[i].pid != result[j].pid
  {
    WalkEndsIff(x, cache);
    ghost var m := Ancestors(x, cache);
    result := [];
    var cur := x;
    while Present(cache, cur.parentPid)
      invariant Collected(x, cache, result)
      invariant cur.parentPid == Link(x, result, |result|)
      decreases |m| - |result|
    {
      var info := cache[cur.parentPid].value;
      ExtendCollected(x, cache, result);
      result := result + [info];
      CollectedIsPrefix(x, cache, result, m);
      cur := info;
    }
    MaximalUnique(x, cache, result, m);
    forall i, j | 0 <= i < j < |result| ensures Link(x, result, i) != Link(x, result, j) {
      LinksDistinct(x, cache, result, i, j);
    }
    CollectedBound(x, cache, result);
    forall i, j | Keyed(cache) && 0 <= i < j < |result| ensures result[i].pid != result[j].pid {
      assert result[i].pid == Link(x, result, i) && result[j].pid == Link(x, result, j);
    }
  }

  // ---- birth order rules cycles out

  /** Every cached parent link that is present leads to an earlier-born instance. */
  ghost predicate BirthOrdered(cache: ProcessCache) {
    forall pid | Present(cache, pid) && Present(cache, cache[pid].value.parentPid) ::
      cache[cache[pid].value.parentPid].value.procDir < cache[pid].value.procDir
  }

  lemma {:induction false} DescentBound(x: Handle, cache: ProcessCache, c: seq<Handle>, i: nat, j: nat)
    requires BirthOrdered(cache) && Collected(x, cache, c) && i < j < |c|
    ensures c[j].procDir < c[i].procDir
  {
    assert Present(cache, Link(x, c, j - 1)) && Present(cache, Link(x, c, j));
    if i + 1 < j {
      DescentBound(x, cache, c, i, j - 1);
    }
  }

  lemma BirthOrderEndsWalks(x: Handle, cache: ProcessCache)
    requires BirthOrdered(cache)
    ensures !ReachesCycle(x, cache) && WalkEnds(x, cache)
  {
    if ReachesCycle(x, cache) {
      var c, i: nat, j: nat :| Collected(x, cache, c) && i < j < |c| && Link(x, c, i) == Link(x, c, j);
      DescentBound(x, cache, c, i, j);
      assert false;
    }
    WalkEndsIff(x, cache);
  }

  // ---- what an edit of one entry leaves alone

  /** The walk from `x` looks up `k`, be it only to find that it is missing. */
  ghost predicate LooksUp(x: Handle, cache: ProcessCache, k: Pid) {
    exists i :: 0 <= i <= |Ancestors(x, cache)| && Link(x, Ancestors(x, cache), i) == k
  }

  predicate EntryDiffers(cache: ProcessCache, cache': ProcessCache, k: Pid) {
    Present(cache, k) != Present(cache', k) || (Present(cache, k) && cache'[k] != cache[k])
  }

  /** Whatever else has changed, a walk that looks none of it up stays the same. */
  lemma WalkFrame(x: Handle, cache: ProcessCache, cache': ProcessCache)
    requires WalkEnds(x, cache) && forall k | EntryDiffers(cache, cache', k) :: !LooksUp(x, cache, k)
    ensures WalkEnds(x, cache') && Ancestors(x, cache') == Ancestors(x, cache)
  {
    var c := Ancestors(x, cache);
    forall i | 0 <= i <= |c| ensures !EntryDiffers(cache, cache', Link(x, c, i)) {
      assert LooksUp(x, cache, Link(x, c, i));
    }
    assert Maximal(x, cache', c);
    MaximalUnique(x, cache', c, Ancestors(x, cache'));
  }

  /** The entry has changed, or one that its walk looks up has. */
  ghost predicate EntryMoves(cache: ProcessCache, cache': ProcessCache, pid: Pid) {
    exists k :: EntryDiffers(cache, cache', k) && (k == pid || (Present(cache, pid) && LooksUp(cache[pid].value, cache, k)))
  }

  /** The two caches agree on every entry but the one for `k`. */
  ghost predicate AgreeExcept(cache: ProcessCache, cache': ProcessCache, k: Pid) {
    forall pid | pid != k :: !EntryDiffers(cache, cache', pid)
  }

  /** Inserting, replacing or removing `k` does not change the ancestors of a process whose walk does not look `k` up. */
  lemma EditFrame(x: Handle, cache: ProcessCache, cache': ProcessCache, k: Pid)
    requires WalkEnds(x, cache) && AgreeExcept(cache, cache', k) && !LooksUp(x, cache, k)
    ensures WalkEnds(x, cache') && Ancestors(x, cache') == Ancestors(x, cache)
    ensures !LooksUp(x, cache', k)
  {
    WalkFrame(x, cache, cache');
  }

  // ---- which edits close a cycle

  ghost predicate AllWalksEnd(cache: ProcessCache) {
    forall pid | Present(cache, pid) :: WalkEnds(cache[pid].value, cache)
  }

  /** Every present entry of `cache'` is one of `cache`. */
  ghost predicate SubCache(cache': ProcessCache, cache: ProcessCache) {
    forall pid | Present(cache', pid) :: Present(cache, pid) && cache'[pid] == cache[pid]
  }

  /** Removing entries closes no cycle; it cuts each walk at the first link that is now missing. */
  lemma RemovalCutsWalks(x: Handle, cache: ProcessCache, cache': ProcessCache)
    requires WalkEnds(x, cache) && SubCache(cache', cache)
    ensures WalkEnds(x, cache')
    ensures var c, c' := Ancestors(x, cache), Ancestors(x, cache');
            && |c'| <= |c| && c' == c[..|c'|]
            && (forall j | 0 <= j < |c'| :: Present(cache', Link(x, c, j)))
            && !Present(cache', Link(x, c, |c'|))
  {
    WalkEndsIff(x, cache);
    if ReachesCycle(x, cache') {
      var c, i: nat, j: nat :| Collected(x, cache', c) && i < j < |c| && Link(x, c, i) == Link(x, c, j);
      assert Collected(x, cache, c);
      assert false;
    }
    WalkEndsIff(x, cache');
    CollectedIsPrefix(x, cache, Ancestors(x, cache'), Ancestors(x, cache));
    var c, c' := Ancestors(x, cache), Ancestors(x, cache');
    forall j | 0 <= j <= |c'| ensures Link(x, c, j) == Link(x, c', j) {
    }
  }

  lemma RemovalKeepsWalks(cache: ProcessCache, cache': ProcessCache)
    requires AllWalksEnd(cache) && SubCache(cache', cache)
    ensures AllWalksEnd(cache')
  {
    forall pid | Present(cache', pid) ensures WalkEnds(cache'[pid].value, cache') {
      RemovalCutsWalks(cache[pid].value, cache, cache');
    }
  }

  /** A walk that has come to `h` goes on as the walk from `h` does. */
  lemma WalkJoins(x: Handle, cache: ProcessCache, c: seq<Handle>, h: Handle, d: seq<Handle>)
    requires Collected(x, cache, c) && Collected(h, cache, d)
    requires Present(cache, Link(x, c, |c|)) && cache[Link(x, c, |c|)].value == h
    ensures Collected(x, cache, c + [h] + d)
    ensures Link(x, c + [h] + d, |c|) == Link(x, c, |c|)
    ensures Link(x, c + [h] + d, |c| + 1 + |d|) == Link(h, d, |d|)
  {
    var joined := c + [h] + d;
    forall i | 0 <= i < |joined| ensures Present(cache, Link(x, joined, i)) && cache[Link(x, joined, i)].value == joined[i] {
      if i <= |c| {
        assert Link(x, joined, i) == Link(x, c, i);
      } else {
        assert Link(x, joined, i) == Link(h, d, i - |c| - 1);
      }
    }
  }

  lemma JoinedWalkEnds(x: Handle, cache: ProcessCache, c: seq<Handle>, h: Handle)
    requires Collected(x, cache, c) && WalkEnds(h, cache)
    requires Present(cache, Link(x, c, |c|)) && cache[Link(x, c, |c|)].value == h
    ensures WalkEnds(x, cache)
  {
    var d := Ancestors(h, cache);
    WalkJoins(x, cache, c, h, d);
    assert Maximal(x, cache, c + [h] + d);
  }

  /** If the walk from every entry ends, so does the walk from any handle at all. */
  lemma AnyWalkEnds(x: Handle, cache: ProcessCache)
    requires AllWalksEnd(cache)
    ensures WalkEnds(x, cache)
  {
    assert Collected(x, cache, []);
    if Present(cache, x.parentPid) {
      JoinedWalkEnds(x, cache, [], cache[x.parentPid].value);
    } else {
      assert Maximal(x, cache, []);
    }
  }

  /** Among the links of a walk that ends, a missing pid can only be the last one. */
  lemma LooksUpMissing(x: Handle, cache: ProcessCache, k: Pid)
    requires WalkEnds(x, cache) && !Present(cache, k)
    ensures LooksUp(x, cache, k) <==> Link(x, Ancestors(x, cache), |Ancestors(x, cache)|) == k
  {
  }

  lemma LookingItselfUpNeverEnds(h: Handle, cache: ProcessCache, c: seq<Handle>)
    requires Collected(h, cache, c) && Present(cache, Link(h, c, |c|)) && cache[Link(h, c, |c|)].value == h
    ensures !WalkEnds(h, cache)
  {
    if WalkEnds(h, cache) {
      var m := Ancestors(h, cache);
      var d := c + [h] + c;
      WalkJoins(h, cache, c, h, c);
      CollectedIsPrefix(h, cache, d, m);
      assert Link(h, m, |c|) == Link(h, d, |c|) && Link(h, m, |d|) == Link(h, d, |d|);
      LinksDistinct(h, cache, m, |c|, |d|);
    }
  }

  /** The handle that is filed under a new pid closes a cycle exactly when its own walk asks for that pid. */
  lemma InsertClosesCycleIff(h: Handle, cache: ProcessCache, k: Pid)
    requires !Present(cache, k) && WalkEnds(h, cache)
    ensures ReachesCycle(h, cache[k := Some(h)]) <==> LooksUp(h, cache, k)
  {
    var cache' := cache[k := Some(h)];
    LooksUpMissing(h, cache, k);
    WalkEndsIff(h, cache');
    if LooksUp(h, cache, k) {
      assert Collected(h, cache', Ancestors(h, cache));
      LookingItselfUpNeverEnds(h, cache', Ancestors(h, cache));
    } else {
      EditFrame(h, cache, cache', k);
    }
  }

  /** Nor does it then close one for anybody else. */
  lemma InsertKeepsOthers(x: Handle, h: Handle, cache: ProcessCache, k: Pid)
    requires !Present(cache, k) && WalkEnds(h, cache) && WalkEnds(x, cache) && !LooksUp(h, cache, k)
    ensures WalkEnds(x, cache[k := Some(h)])
  {
    var cache' := cache[k := Some(h)];
    LooksUpMissing(x, cache, k);
    if LooksUp(x, cache, k) {
      EditFrame(h, cache, cache', k);
      assert Collected(x, cache', Ancestors(x, cache));
      JoinedWalkEnds(x, cache', Ancestors(x, cache), h);
    } else {
      EditFrame(x, cache, cache', k);
    }
  }

  lemma InsertKeepsAll(h: Handle, cache: ProcessCache, k: Pid)
    requires AllWalksEnd(cache) && !Present(cache, k) && WalkEnds(h, cache) && !LooksUp(h, cache, k)
    ensures AllWalksEnd(cache[k := Some(h)])
  {
    var cache' := cache[k := Some(h)];
    forall pid | Present(cache', pid) ensures WalkEnds(cache'[pid].value, cache') {
      InsertKeepsOthers(if pid == k then h else cache[pid].value, h, cache, k);
    }
  }

  /**
   The exact condition under which filing a handle, in place of an earlier one
   or not, keeps the links free of cycles. It can be checked before the
   insertion: the walk that decides it ends.
   */
  lemma InsertKeepsWalksIff(h: Handle, cache: ProcessCache, k: Pid)
    requires AllWalksEnd(cache)
    ensures WalkEnds(h, cache - {k})
    ensures AllWalksEnd(cache[k := Some(h)]) <==> !LooksUp(h, cache - {k}, k)
  {
    var without, cache' := cache - {k}, cache[k := Some(h)];
    RemovalKeepsWalks(cache, without);
    AnyWalkEnds(h, without);
    assert without[k := Some(h)] == cache';
    if LooksUp(h, without, k) {
      InsertClosesCycleIff(h, without, k);
      WalkEndsIff(h, cache');
      assert Present(cache', k);
    } else {
      InsertKeepsAll(h, without, k);
    }
  }
}
