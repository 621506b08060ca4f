/** The per-peer sliding window of accepted session opens. */
module RateWindow {
  import opened Seqs

  const LIMIT: nat := 12
  const WINDOW := 60_000_000_000  // one minute in nanoseconds

  /** The opens after `cut`. */
  function Recent(opens: seq<int>, cut: int): seq<int> {
    if opens == [] then [] else (if opens[0] > cut then [opens[0]] else []) + Recent(opens[1..], cut)
  }

  /** One round of the compaction. */
  lemma RecentStep(kept: seq<int>, opens: seq<int>, i: nat, cut: int)
    requires i < |opens|
    ensures kept + Recent(opens[i..], cut) ==
      (if opens[i] > cut then kept + [opens[i]] else kept) + Recent(opens[i + 1..], cut)
  {
    DropDrop(opens, i, 1);
    assert opens[i..][0] == opens[i];
    Assoc(kept, [opens[i]], Recent(opens[i + 1..], cut));
  }

  /** One peer's window, kept in a buffer that is compacted over itself. */
  class PeerWindow {
    var buf: array<int>
    var len: nat

    ghost predicate Valid()
      reads this
    {
      len <= buf.Length
    }

    ghost function Contents(): seq<int>
      requires Valid()
      reads this, buf
    {
      buf[..len]
    }

    constructor ()
      ensures Valid() && Contents() == [] && fresh(buf)
    {
      buf, len := new int[0], 0;
    }

    /** Drops the opens up to `cut`, in place. */
    method Compact(cut: int)
      requires Valid()
      modifies this`len, buf
      ensures Valid() && Contents() == Recent(old(Contents()), cut)
    {
      ghost var was, done := Contents(), [];
      var kept := 0;
      assert was[0..] == was && [] + Recent(was, cut) == Recent(was, cut);
      for i := 0 to len
        invariant kept <= i <= len == old(len) && Valid()
        invariant buf[..kept] == done && done + Recent(was[i..], cut) == Recent(was, cut)
        invariant forall k :: i <= k < len ==> buf[k] == was[k]
      {
        var t := buf[i];
        RecentStep(done, was, i, cut);
        if t > cut {
          buf[kept] := t;
          assert buf[..kept + 1] == buf[..kept] + [t];
          done := done + [t];
          kept := kept + 1;
        }
      }
      len := kept;
    }

    /** Makes room for one more open. */
    method Grow()
      requires Valid()
      modifies this`buf
      ensures Valid() && len < buf.Length && Contents() == old(Contents()) && (buf == old(buf) || fresh(buf))
    {
      if len == buf.Length {
        var bigger := new int[2 * len + 1];
        for i := 0 to len
          invariant len == old(len) && buf == old(buf) && buf[..] == old(buf[..]) && len < bigger.Length
          invariant bigger[..i] == buf[..i]
        {
          bigger[i] := buf[i];
        }
        assert bigger[..len] == buf[..len];
        buf := bigger;
      }
    }

    /** Whether one more open is allowed; the clock is read at `now` and again, when the
        open is entered, at `later`. */
    method Allow(now: int, later: int) returns (ok: bool)
      requires Valid()
      modifies this, buf
      ensures Valid() && (buf == old(buf) || fresh(buf))
      ensures ok <==> |Recent(old(Contents()), now - WINDOW)| < LIMIT
      ensures Contents() == Recent(old(Contents()), now - WINDOW) + if ok then [later] else []
    {
      Compact(now - WINDOW);
      ok := len < LIMIT;
      if ok {
        Grow();
        ghost var kept := Contents();
        buf[len] := later;
        len := len + 1;
        assert buf[..len] == kept + [later];
      }
    }
  }

  // ----- Sequences of calls

  datatype Call = Call(peer: string, now: int, later: int)

  /** The clock never goes back. */
  ghost predicate Ordered(calls: seq<Call>) {
    && (forall i :: 0 <= i < |calls| ==> calls[i].now <= calls[i].later)
    && (forall i, j :: 0 <= i < j < |calls| ==> calls[i].later <= calls[j].now)
  }

  /** A peer's window, and all the opens it was ever granted. */
  datatype Peer = Peer(window: seq<int>, accepted: seq<int>)

  predicate Allowed(p: Peer, c: Call) {
    |Recent(p.window, c.now - WINDOW)| < LIMIT
  }

  function Served(p: Peer, c: Call): Peer {
    var kept := Recent(p.window, c.now - WINDOW);
    if Allowed(p, c) then Peer(kept + [c.later], p.accepted + [c.later]) else p.(window := kept)
  }

  function After(calls: seq<Call>, peer: string): Peer {
    if calls == [] then Peer([], [])
    else
      var n := |calls| - 1;
      var p := After(calls[..n], peer);
      if calls[n].peer == peer then Served(p, calls[n]) else p
  }

  ghost predicate Sorted(s: seq<int>) {
    forall i, j :: 0 <= i < j < |s| ==> s[i] <= s[j]
  }

  /** Thirteen opens in a row take at least the length of the window. */
  ghost predicate Spread(s: seq<int>) {
    forall i, j :: 0 <= i && j == i + LIMIT < |s| ==> s[j] - s[i] >= WINDOW
  }

  /** The window is the recent end of the history; `now` bounds the past. */
  ghost predicate PeerOk(p: Peer, now: int) {
    && Sorted(p.accepted) && Spread(p.accepted)
    && (forall i :: 0 <= i < |p.accepted| ==> p.accepted[i] <= now)
    && |p.window| <= |p.accepted|
    && var k := |p.accepted| - |p.window|;
    && p.window == p.accepted[k..]
    && (forall i :: 0 <= i < k ==> p.accepted[i] <= now - WINDOW)
  }

  /** How many of the sorted `s` lie at or before `cut`. */
  ghost function Past(s: seq<int>, cut: int): (k: nat)
    requires Sorted(s)
    ensures k <= |s|
    ensures forall i :: 0 <= i < k ==> s[i] <= cut
    ensures forall i :: k <= i < |s| ==> s[i] > cut
  {
    if s == [] || s[0] > cut then 0 else 1 + Past(s[1..], cut)
  }

  lemma {:induction false} RecentFrom(s: seq<int>, k: nat, cut: int)
    requires k <= |s|
    requires forall i :: 0 <= i < k ==> s[i] <= cut
    requires forall i :: k <= i < |s| ==> s[i] > cut
    ensures Recent(s, cut) == s[k..]
  {
    if k > 0 {
      RecentFrom(s[1..], k - 1, cut);
      DropDrop(s, 1, k - 1);
    } else if s != [] {
      RecentFrom(s[1..], 0, cut);
    }
  }

  /** The window forgets only what is too old to count: the `k` opens at or before `cut`. */
  lemma KeptIsEnd(p: Peer, now: int, cut: int) returns (k: nat)
    requires PeerOk(p, now) && now - WINDOW <= cut
    ensures k <= |p.accepted| && forall i :: 0 <= i < k ==> p.accepted[i] <= cut
    ensures Recent(p.window, cut) == Recent(p.accepted, cut) == p.accepted[k..]
  {
    var a := p.accepted;
    k := Past(a, cut);
    RecentFrom(a, k, cut);
    RecentEnd(a, p.window, |a| - |p.window|, k, cut);
  }

  lemma RecentEnd(a: seq<int>, window: seq<int>, m: nat, k: nat, cut: int)
    requires m <= |a| && window == a[m..] && forall i :: 0 <= i < m ==> a[i] <= cut
    requires k <= |a| && (forall i :: 0 <= i < k ==> a[i] <= cut) && forall i :: k <= i < |a| ==> a[i] > cut
    ensures Recent(window, cut) == a[k..]
  {
    assert k < |a| ==> a[k] > cut;
    assert k >= m;
    RecentFrom(window, k - m, cut);
    DropDrop(a, m, k - m);
  }

  lemma ServedOk(p: Peer, c: Call, now: int)
    requires PeerOk(p, now) && now <= c.now <= c.later
    ensures PeerOk(Served(p, c), c.later)
  {
    var k := KeptIsEnd(p, now, c.now - WINDOW);
    var a, kept := p.accepted, p.accepted[k..];
    ServedIs(p, c, kept);
    if |kept| < LIMIT {
      GrantedOk(a, k, c.later);
    } else {
      PeerFrom(a, k, c.later);
    }
  }

  lemma ServedIs(p: Peer, c: Call, kept: seq<int>)
    requires kept == Recent(p.window, c.now - WINDOW)
    ensures Served(p, c) ==
      if |kept| < LIMIT then Peer(kept + [c.later], p.accepted + [c.later]) else Peer(kept, p.accepted)
  {
  }

  lemma GrantedOk(a: seq<int>, k: nat, later: int)
    requires Sorted(a) && Spread(a) && k <= |a| && |a| - k < LIMIT
    requires forall i :: 0 <= i < |a| ==> a[i] <= later
    requires forall i :: 0 <= i < k ==> a[i] <= later - WINDOW
    ensures PeerOk(Peer(a[k..] + [later], a + [later]), later)
  {
    AppendSpread(a, k, later);
    PeerFrom(a + [later], k, later);
    DropAppend(a, k, later);
  }

  lemma DropAppend(a: seq<int>, k: nat, x: int)
    requires k <= |a|
    ensures (a + [x])[k..] == a[k..] + [x]
  {
  }

  lemma PeerFrom(a: seq<int>, k: nat, now: int)
    requires Sorted(a) && Spread(a) && k <= |a|
    requires forall i :: 0 <= i < |a| ==> a[i] <= now
    requires forall i :: 0 <= i < k ==> a[i] <= now - WINDOW
    ensures PeerOk(Peer(a[k..], a), now)
  {
  }

  lemma AppendSpread(a: seq<int>, k: nat, later: int)
    requires Sorted(a) && Spread(a) && k <= |a| && |a| - k < LIMIT
    requires forall i :: 0 <= i < k ==> a[i] <= later - WINDOW
    requires forall i :: 0 <= i < |a| ==> a[i] <= later
    ensures Sorted(a + [later]) && Spread(a + [later])
  {
  }

  lemma {:induction false} AfterOk(calls: seq<Call>, peer: string, now: int)
    requires Ordered(calls) && forall i :: 0 <= i < |calls| ==> calls[i].later <= now
    ensures PeerOk(After(calls, peer), now)
    decreases |calls|
  {
    if calls != [] {
      var n := |calls| - 1;
      var c := calls[n];
      AfterOk(calls[..n], peer, c.now);
      if c.peer == peer {
        ServedOk(After(calls[..n], peer), c, c.now);
      }
      PeerOkLater(After(calls, peer), c.later, now);
      PeerOkLater(After(calls[..n], peer), c.now, now);
    }
  }

  lemma PeerOkLater(p: Peer, now: int, later: int)
    requires now <= later
    ensures PeerOk(p, now) ==> PeerOk(p, later)
  {
  }

  /** The opens granted from `from` on for one window's length. */
  function Within(accepted: seq<int>, from: int): set<nat> {
    set i: nat | i < |accepted| && from <= accepted[i] < from + WINDOW
  }

  /** For any calls at times that never go back, every minute holds at most twelve granted
      opens of a peer. */
  lemma AtMostLimit(calls: seq<Call>, peer: string, from: int)
    requires Ordered(calls)
    ensures |Within(After(calls, peer).accepted, from)| <= LIMIT
  {
    var now := if calls == [] then 0 else calls[|calls| - 1].later;
    AfterOk(calls, peer, now);
    WithinLimit(After(calls, peer).accepted, from);
  }

  lemma WithinLimit(a: seq<int>, from: int)
    requires Sorted(a) && Spread(a)
    ensures |Within(a, from)| <= LIMIT
  {
    var w := Within(a, from);
    if w != {} {
      var m := First(w);
      var j := m + LIMIT;
      assert j < |a| ==> a[j] >= from + WINDOW;
      assert forall i :: j <= i < |a| ==> a[i] >= from + WINDOW;
      BoundedSize(w, m, LIMIT);
    }
  }

  lemma {:induction false} First(w: set<nat>) returns (m: nat)
    requires w != {}
    ensures m in w && forall i :: i in w ==> m <= i
    decreases w
  {
    var x :| x in w;
    m := x;
    if w != {x} {
      var k := First(w - {x});
      m := if k < x then k else x;
      assert forall i :: i in w ==> i == x || i in w - {x};
    }
  }

  lemma {:induction false} BoundedSize(w: set<nat>, m: nat, n: nat)
    requires forall i :: i in w ==> m <= i < m + n
    ensures |w| <= n
    decreases n
  {
    if n == 0 {
      assert w == {};
    } else {
      BoundedSize(w - {m + n - 1}, m, n - 1);
    }
  }

  /** A call that is allowed is granted, at its time; one that is not, and any call of another
      peer, leaves the grants of a peer as they are. */
  lemma CallIsGranted(calls: seq<Call>, c: Call, peer: string)
    ensures After(calls + [c], peer).accepted ==
      After(calls, peer).accepted + if c.peer == peer && Allowed(After(calls, peer), c) then [c.later] else []
  {
    assert (calls + [c])[..|calls|] == calls;
  }

  /** Forgetting old opens loses nothing: a call is allowed exactly when fewer than twelve
      of all the opens ever granted lie in the last minute. */
  lemma ForgettingIsExact(calls: seq<Call>, c: Call)
    requires Ordered(calls + [c])
    ensures var p := After(calls, c.peer);
      Allowed(p, c) <==> |Recent(p.accepted, c.now - WINDOW)| < LIMIT
  {
    assert forall i :: 0 <= i < |calls| ==> (calls + [c])[i] == calls[i];
    assert (calls + [c])[|calls|] == c;
    AfterOk(calls, c.peer, c.now);
    var k := KeptIsEnd(After(calls, c.peer), c.now, c.now - WINDOW);
  }
}
