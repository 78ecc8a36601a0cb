/**
 * Gaze-to-monitor mapping of `MonitorDetector` (postured/app.py): the camera X coordinate is
 * mirrored, the screens are sorted left to right, the point is located in the cumulative width
 * ranges, and a different monitor only becomes current after five identical detections.
 */
module MonitorDetection {
  import opened Common

  /** A screen as the detector reads it: `name()` and `geometry()` x, width and height. */
  datatype Screen = Screen(name: string, x: int, width: nat, height: nat)

  /** `get_monitor_id`: `"{name}_{width}x{height}"`. Two screens with the same name and size collide. */
  function MonitorId(s: Screen): (id: string)
    ensures |id| > |s.name| + 1 && id[..|s.name|] == s.name && id[|s.name|] == '_'
    ensures id[|s.name| + 1..] == NatToString(s.width) + "x" + NatToString(s.height)
  {
    s.name + "_" + NatToString(s.width) + "x" + NatToString(s.height)
  }

  /** Of two screens with the same name, the id tells whether they have the same size. */
  lemma MonitorIdDeterminesSize(a: Screen, b: Screen)
    requires a.name == b.name
    ensures MonitorId(a) == MonitorId(b) <==> a.width == b.width && a.height == b.height
  {
    if MonitorId(a) == MonitorId(b) {
      var n := |a.name| + 1;
      assert MonitorId(a)[n..] == MonitorId(b)[n..];
      SplitAtX(NatToString(a.width), NatToString(a.height), NatToString(b.width), NatToString(b.height));
      NatToStringInjective(a.width, b.width);
      NatToStringInjective(a.height, b.height);
    }
  }

  predicate AllDigits(s: string) {
    forall i :: 0 <= i < |s| ==> '0' <= s[i] <= '9'
  }

  /** In `"{w}x{h}"` with decimal `w`, the first `x` follows `w`. */
  lemma FirstX(w: string, h: string)
    requires AllDigits(w)
    ensures (w + "x" + h)[|w|] == 'x'
    ensures forall i :: 0 <= i < |w| ==> (w + "x" + h)[i] != 'x'
  {
  }

  /** `"{w}x{h}"` with decimal `w` splits back uniquely at its `x`. */
  lemma SplitAtX(w1: string, h1: string, w2: string, h2: string)
    requires AllDigits(w1) && AllDigits(w2)
    requires w1 + "x" + h1 == w2 + "x" + h2
    ensures w1 == w2 && h1 == h2
  {
    var s := w1 + "x" + h1;
    FirstX(w1, h1);
    FirstX(w2, h2);
    assert |w1| == |w2|;
    assert w1 == s[..|w1|] && w2 == s[..|w2|];
    assert h1 == s[|w1| + 1..] && h2 == s[|w2| + 1..];
  }

  /** `HYSTERESIS_FRAMES`: frames a new candidate must persist before it becomes current. */
  const HysteresisFrames: nat := 5

  // ---------------------------------------------------------------------------------------
  // Sorting by x offset (Python's stable `sorted(screens, key=lambda s: s.geometry().x())`)
  // ---------------------------------------------------------------------------------------

  ghost predicate SortedByX(s: seq<Screen>) {
    forall i, j :: 0 <= i < j < |s| ==> s[i].x <= s[j].x
  }

  /** Inserts `e` in front of the first element whose x is not smaller (so `e` keeps its place among ties). */
  function Insert(e: Screen, s: seq<Screen>): (r: seq<Screen>)
    ensures multiset(r) == multiset(s) + multiset{e}
    ensures |r| == |s| + 1
  {
    if s == [] then [e]
    else if e.x <= s[0].x then [e] + s
    else
      assert s == [s[0]] + s[1..];
      [s[0]] + Insert(e, s[1..])
  }

  /** Inserting into a sorted layout keeps it sorted, and the result starts with the smaller head. */
  lemma {:induction false} InsertSorted(e: Screen, s: seq<Screen>)
    requires SortedByX(s)
    ensures SortedByX(Insert(e, s))
    ensures Insert(e, s)[0] == if s == [] || e.x <= s[0].x then e else s[0]
  {
    if s == [] {
    } else if e.x <= s[0].x {
      ConsSorted(e, s);
    } else {
      InsertSorted(e, s[1..]);
      ConsSorted(s[0], Insert(e, s[1..]));
    }
  }

  /** Putting a screen no further right than the head in front of a sorted layout keeps it sorted. */
  lemma ConsSorted(a: Screen, r: seq<Screen>)
    requires SortedByX(r)
    requires r != [] ==> a.x <= r[0].x
    ensures SortedByX([a] + r)
  {
  }

  /** Stable insertion sort by x offset. */
  function SortByX(s: seq<Screen>): (r: seq<Screen>)
    ensures SortedByX(r)
    ensures multiset(r) == multiset(s)
    ensures |r| == |s|
  {
    if s == [] then []
    else
      assert s == [s[0]] + s[1..];
      InsertSorted(s[0], SortByX(s[1..]));
      Insert(s[0], SortByX(s[1..]))
  }

  /** No two different screens of the layout share an x offset (identical duplicates are allowed). */
  ghost predicate XDetermines(s: seq<Screen>) {
    forall a, b :: a in s && b in s && a.x == b.x ==> a == b
  }

  /** Two layouts sorted by x with the same screens, where x tells screens apart, are the same list. */
  lemma {:induction false} SortedPermutationsEqual(p: seq<Screen>, q: seq<Screen>)
    requires SortedByX(p) && SortedByX(q)
    requires multiset(p) == multiset(q)
    requires XDetermines(p)
    ensures p == q
    decreases |p|
  {
    SameLength(p, q);
    if |p| > 0 {
      SortedHeadsEqual(p, q);
      TailsPermutation(p, q);
      SortedTail(p);
      SortedTail(q);
      XDeterminesTail(p);
      SortedPermutationsEqual(p[1..], q[1..]);
      HeadTailEqual(p, q);
    }
  }

  lemma SameLength(p: seq<Screen>, q: seq<Screen>)
    requires multiset(p) == multiset(q)
    ensures |p| == |q|
  {
    assert |q| == |multiset(q)| == |multiset(p)| == |p|;
  }

  lemma TailsPermutation(p: seq<Screen>, q: seq<Screen>)
    requires |p| > 0 && |q| > 0 && p[0] == q[0]
    requires multiset(p) == multiset(q)
    ensures multiset(p[1..]) == multiset(q[1..])
  {
    TailMultiset(p);
    TailMultiset(q);
  }

  lemma HeadTailEqual(p: seq<Screen>, q: seq<Screen>)
    requires |p| > 0 && |q| > 0 && p[0] == q[0] && p[1..] == q[1..]
    ensures p == q
  {
    assert p == [p[0]] + p[1..];
    assert q == [q[0]] + q[1..];
  }

  lemma SortedTail(p: seq<Screen>)
    requires SortedByX(p) && |p| > 0
    ensures SortedByX(p[1..])
  {
  }

  lemma XDeterminesTail(p: seq<Screen>)
    requires XDetermines(p) && |p| > 0
    ensures XDetermines(p[1..])
  {
    forall a, b | a in p[1..] && b in p[1..] && a.x == b.x ensures a == b {
      assert a in p && b in p;
    }
  }

  lemma TailMultiset(p: seq<Screen>)
    requires |p| > 0
    ensures multiset(p[1..]) == multiset(p) - multiset{p[0]}
  {
    assert p == [p[0]] + p[1..];
  }

  /** Both sorted lists start with the screen of least x, which x determines. */
  lemma SortedHeadsEqual(p: seq<Screen>, q: seq<Screen>)
    requires SortedByX(p) && SortedByX(q)
    requires multiset(p) == multiset(q)
    requires XDetermines(p)
    requires |p| > 0 && |q| > 0
    ensures p[0] == q[0]
  {
    assert q[0] in multiset(p);
    var k :| 0 <= k < |p| && p[k] == q[0];
    assert p[0] in multiset(q);
    var m :| 0 <= m < |q| && q[m] == p[0];
    assert p[0].x <= p[k].x;
    assert q[0].x <= q[m].x;
    assert p[k] in p && p[0] in p;
  }

  // ---------------------------------------------------------------------------------------
  // Locating the desktop coordinate
  // ---------------------------------------------------------------------------------------

  /** `sum(s.geometry().width() for s in screens)`. */
  function TotalWidth(s: seq<Screen>): nat {
    if s == [] then 0 else s[0].width + TotalWidth(s[1..])
  }

  /** Cumulative x at the left edge of screen `k`: the widths of the screens before it. */
  function Prefix(s: seq<Screen>, k: nat): nat
    requires k <= |s|
  {
    TotalWidth(s[..k])
  }

  lemma {:induction false} PrefixStep(s: seq<Screen>, k: nat)
    requires 0 < k <= |s|
    ensures Prefix(s, k) == s[0].width + Prefix(s[1..], k - 1)
  {
    assert s[..k][1..] == s[1..][..k - 1];
  }

  lemma {:induction false} PrefixMonotone(s: seq<Screen>, j: nat, k: nat)
    requires j <= k <= |s|
    ensures Prefix(s, j) <= Prefix(s, k)
    decreases k
  {
    if j < k {
      PrefixMonotone(s, j, k - 1);
      PrefixNext(s, k - 1);
    }
  }

  lemma {:induction false} PrefixNext(s: seq<Screen>, k: nat)
    requires k < |s|
    ensures Prefix(s, k + 1) == Prefix(s, k) + s[k].width
    decreases k
  {
    PrefixStep(s, k + 1);
    if k > 0 {
      PrefixStep(s, k);
      PrefixNext(s[1..], k - 1);
    } else {
      assert s[1..][..0] == [];
    }
  }

  /** Cumulative x at the right edge of screen `k`. */
  function RightEdge(s: seq<Screen>, k: nat): nat
    requires k < |s|
  {
    Prefix(s, k + 1)
  }

  lemma PrefixAll(s: seq<Screen>)
    ensures Prefix(s, |s|) == TotalWidth(s)
  {
    assert s[..|s|] == s;
  }

  /**
   * The `for screen in sorted_screens` scan: the index of the first screen with
   * `desktop_x < cumulative_x + width`, falling back to the last screen.
   */
  function Containing(s: seq<Screen>, desktopX: real, cumulative: int): (k: nat)
    requires |s| > 0
    ensures k < |s|
    ensures forall j :: 0 <= j < k ==> desktopX >= (cumulative + RightEdge(s, j)) as real
    ensures desktopX < (cumulative + RightEdge(s, k)) as real || k == |s| - 1
    decreases |s|
  {
    PrefixStep(s, 1);
    assert Prefix(s[1..], 0) == 0;
    if desktopX < (cumulative + s[0].width) as real then 0
    else if |s| == 1 then 0
    else
      var k := Containing(s[1..], desktopX, cumulative + s[0].width);
      forall j | 0 <= j < k + 1 ensures desktopX >= (cumulative + RightEdge(s, j)) as real {
        PrefixStep(s, j + 1);
        if j > 0 {
          assert desktopX >= (cumulative + s[0].width + RightEdge(s[1..], j - 1)) as real;
        }
      }
      PrefixStep(s, k + 2);
      k + 1
  }

  /** `desktop_x = (1.0 - nose_x) * total_width`: the camera image is mirrored. */
  function DesktopX(noseX: real, totalWidth: nat): real {
    (1.0 - noseX) * totalWidth as real
  }

  /** Index, in the layout sorted by x, of the screen `_detect_monitor` picks. */
  function DetectIndex(noseX: real, screens: seq<Screen>): (k: nat)
    requires |screens| > 0
    ensures k < |screens|
  {
    var sorted := SortByX(screens);
    var total := TotalWidth(sorted);
    if total == 0 then 0 else Containing(sorted, DesktopX(noseX, total), 0)
  }

  /** `_detect_monitor`: the id of the screen the mirrored nose X falls on. */
  function DetectMonitor(noseX: real, screens: seq<Screen>): (id: string)
    requires |screens| > 0
    ensures exists i :: 0 <= i < |screens| && id == MonitorId(screens[i])
  {
    var sorted := SortByX(screens);
    var k := DetectIndex(noseX, screens);
    assert sorted[k] in multiset(screens);
    MonitorId(sorted[k])
  }

  /**
   * The detected monitor is the screen, in x order, at the first position whose cumulative right
   * edge lies past the mirrored point `(1 - noseX) * total width`, or the last screen when none does.
   */
  lemma DetectIndexCharacterised(noseX: real, screens: seq<Screen>)
    requires |screens| > 0 && TotalWidth(screens) > 0
    ensures var sorted := SortByX(screens);
            var d := DesktopX(noseX, TotalWidth(sorted));
            var k := DetectIndex(noseX, screens);
            DetectMonitor(noseX, screens) == MonitorId(sorted[k]) &&
            (forall j :: 0 <= j < k ==> d >= RightEdge(sorted, j) as real) &&
            (d < RightEdge(sorted, k) as real || k == |screens| - 1)
  {
    TotalWidthPermutation(screens, SortByX(screens));
  }

  /** The total width does not depend on the order of the screens. */
  lemma {:induction false} TotalWidthPermutation(a: seq<Screen>, b: seq<Screen>)
    requires multiset(a) == multiset(b)
    ensures TotalWidth(a) == TotalWidth(b)
    decreases |a|
  {
    if a == [] {
      assert |b| == |multiset(b)| == 0;
    } else {
      assert a[0] in multiset(b);
      var i :| 0 <= i < |b| && b[i] == a[0];
      var tail := b[i..];
      var rest := b[..i] + b[i + 1..];
      assert b == b[..i] + tail;
      assert tail[0] == b[i] && tail[1..] == b[i + 1..];
      assert multiset(rest) == multiset(b) - multiset{b[i]} by {
        assert multiset(b) == multiset(b[..i]) + multiset(tail);
        TailMultiset(tail);
      }
      TailMultiset(a);
      TotalWidthPermutation(a[1..], rest);
      TotalWidthConcat(b[..i], tail);
      TotalWidthConcat(b[..i], b[i + 1..]);
    }
  }

  lemma {:induction false} TotalWidthConcat(a: seq<Screen>, b: seq<Screen>)
    ensures TotalWidth(a + b) == TotalWidth(a) + TotalWidth(b)
    decreases |a|
  {
    if a == [] {
      assert a + b == b;
    } else {
      assert (a + b)[1..] == a[1..] + b;
      TotalWidthConcat(a[1..], b);
    }
  }

  /** A point exactly on the boundary between screens k-1 and k belongs to screen k (when it has width). */
  lemma BoundaryGoesRight(s: seq<Screen>, k: nat, desktopX: real)
    requires 0 < k < |s| && s[k].width > 0
    requires desktopX == Prefix(s, k) as real
    ensures Containing(s, desktopX, 0) == k
  {
    var r := Containing(s, desktopX, 0);
    PrefixNext(s, k);
    assert k < r ==> desktopX >= (0 + RightEdge(s, k)) as real;
    if r < k {
      PrefixMonotone(s, r + 1, k);
    }
  }

  /** A point at or beyond the total width falls back to the last screen. */
  lemma BeyondTotalGoesLast(s: seq<Screen>, desktopX: real)
    requires |s| > 0 && desktopX >= TotalWidth(s) as real
    ensures Containing(s, desktopX, 0) == |s| - 1
  {
    var r := Containing(s, desktopX, 0);
    if r < |s| - 1 {
      PrefixMonotone(s, r + 1, |s|);
      PrefixAll(s);
    }
  }

  /** A point left of the desktop goes to the first screen. */
  lemma NegativeGoesFirst(s: seq<Screen>, desktopX: real)
    requires |s| > 0 && desktopX < 0.0
    ensures Containing(s, desktopX, 0) == 0
  {
    PrefixStep(s, 1);
    assert Prefix(s[1..], 0) == 0;
  }

  /** With zero total width the first screen in x order wins. */
  lemma ZeroWidthGoesFirst(noseX: real, screens: seq<Screen>)
    requires |screens| > 0 && TotalWidth(screens) == 0
    ensures DetectMonitor(noseX, screens) == MonitorId(SortByX(screens)[0])
  {
    TotalWidthPermutation(screens, SortByX(screens));
  }

  lemma MirroredBeyondRight(noseX: real, t: nat)
    requires noseX <= 0.0
    ensures DesktopX(noseX, t) >= t as real
  {
    assert (1.0 - noseX) * t as real == t as real + (-noseX) * t as real;
  }

  lemma MirroredLeftOfDesktop(noseX: real, t: nat)
    requires noseX > 1.0 && t > 0
    ensures DesktopX(noseX, t) < 0.0
  {
    assert (1.0 - noseX) * t as real == -((noseX - 1.0) * t as real);
  }

  /** A nose X at or below 0 (mirrored to the right edge or beyond) lands on the rightmost screen. */
  lemma NoseBelowZeroGoesRightmost(noseX: real, screens: seq<Screen>)
    requires |screens| > 0 && TotalWidth(screens) > 0 && noseX <= 0.0
    ensures DetectIndex(noseX, screens) == |screens| - 1
  {
    var sorted := SortByX(screens);
    TotalWidthPermutation(screens, sorted);
    MirroredBeyondRight(noseX, TotalWidth(sorted));
    BeyondTotalGoesLast(sorted, DesktopX(noseX, TotalWidth(sorted)));
  }

  /** A nose X above 1 (mirrored left of the desktop) lands on the leftmost screen. */
  lemma NoseAboveOneGoesLeftmost(noseX: real, screens: seq<Screen>)
    requires |screens| > 0 && noseX > 1.0
    ensures DetectIndex(noseX, screens) == 0
  {
    var sorted := SortByX(screens);
    var t := TotalWidth(sorted);
    if t > 0 {
      MirroredLeftOfDesktop(noseX, t);
      NegativeGoesFirst(sorted, DesktopX(noseX, t));
    }
  }

  /** The choice does not depend on the order QApplication lists the screens in. */
  lemma DetectMonitorOrderIndependent(noseX: real, a: seq<Screen>, b: seq<Screen>)
    requires |a| > 0 && multiset(a) == multiset(b) && XDetermines(a)
    ensures |b| > 0 && DetectMonitor(noseX, a) == DetectMonitor(noseX, b)
  {
    assert |b| == |multiset(b)| == |multiset(a)| == |a|;
    var sa, sb := SortByX(a), SortByX(b);
    forall u, v | u in sa && v in sa && u.x == v.x ensures u == v {
      assert u in multiset(sa) && v in multiset(sa);
      assert u in multiset(a) && v in multiset(a);
    }
    SortedPermutationsEqual(sa, sb);
  }

  // ---------------------------------------------------------------------------------------
  // Switch hysteresis
  // ---------------------------------------------------------------------------------------

  /** `_current_monitor_id`, `_pending_monitor_id`, `_pending_frames`. */
  datatype GazeState = GazeState(current: Option<string>, pending: Option<string>, frames: nat)

  /** Between calls: the count is below the threshold, pending is set iff counting, and never the current id. */
  ghost predicate GazeInvariant(g: GazeState) {
    g.frames < HysteresisFrames &&
    (g.pending.None? <==> g.frames == 0) &&
    (g.pending.Some? ==> g.current != g.pending)
  }

  /** The hysteresis block of `update`, applied to one raw detection. */
  function Hysteresis(g: GazeState, detected: string): (r: GazeState)
    ensures GazeInvariant(g) ==> GazeInvariant(r)
    ensures g.current == Some(detected) ==> r == GazeState(g.current, None, 0)
    ensures r.current != g.current ==>
              r == GazeState(Some(detected), None, 0) &&
              g.pending == Some(detected) && g.frames + 1 >= HysteresisFrames
    ensures g.current != Some(detected) && g.pending != Some(detected) ==>
              r == GazeState(g.current, Some(detected), 1)
    ensures g.current != Some(detected) && g.pending == Some(detected) && g.frames + 1 < HysteresisFrames ==>
              r == GazeState(g.current, g.pending, g.frames + 1)
  {
    if Some(detected) != g.current then
      if Some(detected) == g.pending then
        if g.frames + 1 >= HysteresisFrames then GazeState(Some(detected), None, 0)
        else GazeState(g.current, g.pending, g.frames + 1)
      else GazeState(g.current, Some(detected), 1)
    else GazeState(g.current, None, 0)
  }

  /** `n` consecutive raw detections of the same id. */
  function FeedSame(g: GazeState, detected: string, n: nat): GazeState
    decreases n
  {
    if n == 0 then g else FeedSame(Hysteresis(g, detected), detected, n - 1)
  }

  /**
   * A new candidate becomes current exactly on its fifth consecutive detection: after 1..4 it is
   * pending with that count and the current id is unchanged; after 5 it is current and nothing is pending.
   */
  lemma {:induction false} NewCandidateNeedsFiveFrames(g: GazeState, d: string, n: nat)
    requires GazeInvariant(g)
    requires g.current != Some(d) && g.pending != Some(d)
    requires 1 <= n <= HysteresisFrames
    ensures n < HysteresisFrames ==> FeedSame(g, d, n) == GazeState(g.current, Some(d), n)
    ensures n == HysteresisFrames ==> FeedSame(g, d, n) == GazeState(Some(d), None, 0)
  {
    PendingCounts(g.current, d, 1, n - 1);
  }

  /** From a pending count of k, m more detections of the pending id count up to the switch. */
  lemma {:induction false} PendingCounts(c: Option<string>, d: string, k: nat, m: nat)
    requires c != Some(d) && 1 <= k < HysteresisFrames && k + m <= HysteresisFrames
    ensures k + m < HysteresisFrames ==> FeedSame(GazeState(c, Some(d), k), d, m) == GazeState(c, Some(d), k + m)
    ensures k + m == HysteresisFrames ==> FeedSame(GazeState(c, Some(d), k), d, m) == GazeState(Some(d), None, 0)
    decreases m
  {
    if m > 0 {
      if k + 1 < HysteresisFrames {
        PendingCounts(c, d, k + 1, m - 1);
      } else {
        assert FeedSame(GazeState(c, Some(d), k), d, m) == FeedSame(GazeState(Some(d), None, 0), d, 0);
      }
    }
  }

  /** Four detections of another monitor followed by one of the current leave the current id and no pending. */
  lemma FourThenRevertKeepsCurrent(c: string, d: string)
    requires c != d
    ensures Hysteresis(FeedSame(GazeState(Some(c), None, 0), d, 4), c) == GazeState(Some(c), None, 0)
  {
    NewCandidateNeedsFiveFrames(GazeState(Some(c), None, 0), d, 4);
  }

  /** Once a monitor is current, detecting it again any number of times never changes it. */
  lemma {:induction false} StableDetectionKeepsCurrent(c: string, p: Option<string>, f: nat, n: nat)
    ensures n > 0 ==> FeedSame(GazeState(Some(c), p, f), c, n) == GazeState(Some(c), None, 0)
    ensures n == 0 ==> FeedSame(GazeState(Some(c), p, f), c, n) == GazeState(Some(c), p, f)
    decreases n
  {
    if n > 0 {
      StableDetectionKeepsCurrent(c, None, 0, n - 1);
    }
  }

  /** The detector object of `Application`. */
  class MonitorDetector {
    var currentMonitorId: Option<string>
    var pendingMonitorId: Option<string>
    var pendingFrames: nat

    function State(): GazeState
      reads this
    {
      GazeState(currentMonitorId, pendingMonitorId, pendingFrames)
    }

    ghost predicate Valid()
      reads this
    {
      GazeInvariant(State())
    }

    constructor ()
      ensures Valid()
      ensures State() == GazeState(None, None, 0)
    {
      currentMonitorId := None;
      pendingMonitorId := None;
      pendingFrames := 0;
    }

    /** `update`: with no screens nothing changes and None is returned; otherwise the current id after hysteresis. */
    method Update(noseX: real, screens: seq<Screen>) returns (r: Option<string>)
      requires Valid()
      modifies this
      ensures Valid()
      ensures screens == [] ==> r == None && State() == old(State())
      ensures screens != [] ==>
                State() == Hysteresis(old(State()), DetectMonitor(noseX, screens)) &&
                r == currentMonitorId
    {
      if screens == [] {
        return None;
      }
      var detected := DetectMonitor(noseX, screens);
      if Some(detected) != currentMonitorId {
        if Some(detected) == pendingMonitorId {
          pendingFrames := pendingFrames + 1;
          if pendingFrames >= HysteresisFrames {
            currentMonitorId := Some(detected);
            pendingMonitorId := None;
            pendingFrames := 0;
          }
        } else {
          pendingMonitorId := Some(detected);
          pendingFrames := 1;
        }
      } else {
        pendingMonitorId := None;
        pendingFrames := 0;
      }
      r := currentMonitorId;
    }

    /** `reset`: forget the current and the pending monitor. */
    method Reset()
      modifies this
      ensures Valid()
      ensures State() == GazeState(None, None, 0)
    {
      currentMonitorId := None;
      pendingMonitorId := None;
      pendingFrames := 0;
    }
  }
}
