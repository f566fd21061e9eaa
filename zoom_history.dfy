// The zoom-history state machine driven by mouse clicks, as a function of
// values: the current bounds, the history list and the cursor zoomNum.
module ZoomHistory {
  import opened Viewport

  /** MouseEvent button codes. */
  const BUTTON1: int := 1
  const BUTTON3: int := 3

  /** ArrayList.add(i, x): x goes in at index i, later entries move up by one. */
  function Insert<T>(s: seq<T>, i: int, x: T): (r: seq<T>)
    requires 0 <= i <= |s|
    ensures |r| == |s| + 1
    ensures r[i] == x
    ensures forall j :: 0 <= j < i ==> r[j] == s[j]
    ensures forall j :: i <= j < |s| ==> r[j + 1] == s[j]
  {
    s[..i] + [x] + s[i..]
  }

  /** What the click handler reads and writes: the four current bounds, the
    * history list and the cursor into it. */
  datatype Snapshot = Snapshot(bounds: Bounds, history: seq<Bounds>, zoomNum: int)

  /** The invariant: the cursor is inside the history, the current bounds are
    * the entry under the cursor, and every stored viewport is a proper rectangle. */
  predicate Consistent(s: Snapshot) {
    0 <= s.zoomNum < |s.history| &&
    s.history[s.zoomNum] == s.bounds &&
    forall i :: 0 <= i < |s.history| ==> WellFormed(s.history[i])
  }

  /** The state after construction: one history entry, the initial view, cursor 0. */
  function Initial(): (s: Snapshot)
    ensures Consistent(s)
    ensures s.bounds == INITIAL
    ensures s.history == [s.bounds] && s.zoomNum == 0
  {
    Snapshot(INITIAL, [INITIAL], 0)
  }

  /** BUTTON1: zoom to the clicked point, advance the cursor, and insert the new
    * viewport at the cursor; entries left beyond it are shifted, not replaced. */
  function ZoomedIn(s: Snapshot, px: int, py: int): (r: Snapshot)
    requires Consistent(s)
    ensures Consistent(r)
    ensures r.zoomNum == s.zoomNum + 1
    ensures r.bounds == ZoomAt(s.bounds, px, py)
    ensures r.history == Insert(s.history, r.zoomNum, r.bounds)
  {
    var b := ZoomAt(s.bounds, px, py);
    Snapshot(b, Insert(s.history, s.zoomNum + 1, b), s.zoomNum + 1)
  }

  /** BUTTON3: step the cursor back and reload the bounds stored there; at
    * cursor 0 nothing changes. The history is never shortened. */
  function ZoomedOut(s: Snapshot): (r: Snapshot)
    requires Consistent(s)
    ensures Consistent(r)
    ensures r.history == s.history
    ensures r.zoomNum == if s.zoomNum > 0 then s.zoomNum - 1 else 0
  {
    if s.zoomNum > 0 then Snapshot(s.history[s.zoomNum - 1], s.history, s.zoomNum - 1)
    else s
  }

  /** mouseClicked: dispatch on the button; any other button is ignored. */
  function Clicked(s: Snapshot, button: int, px: int, py: int): (r: Snapshot)
    requires Consistent(s)
    ensures Consistent(r)
  {
    if button == BUTTON1 then ZoomedIn(s, px, py)
    else if button == BUTTON3 then ZoomedOut(s)
    else s
  }

  /** A zoom-in grows the history by exactly one, keeps the entries up to the
    * old cursor, and shifts every later entry up by one place. */
  lemma ZoomInShiftsHistory(s: Snapshot, px: int, py: int)
    requires Consistent(s)
    ensures |Clicked(s, BUTTON1, px, py).history| == |s.history| + 1
    ensures s.history[..s.zoomNum + 1] == Clicked(s, BUTTON1, px, py).history[..s.zoomNum + 1]
    ensures forall j :: s.zoomNum < j < |s.history| ==>
              Clicked(s, BUTTON1, px, py).history[j + 1] == s.history[j]
  {
    var r := Clicked(s, BUTTON1, px, py);
    assert forall j :: 0 <= j <= s.zoomNum ==> r.history[j] == s.history[j];
  }

  /** Zoom-in then zoom-out brings back the previous bounds and cursor; the
    * history keeps the viewport that was pushed. */
  lemma ZoomInThenOut(s: Snapshot, px: int, py: int)
    requires Consistent(s)
    ensures Clicked(Clicked(s, BUTTON1, px, py), BUTTON3, px, py).bounds == s.bounds
    ensures Clicked(Clicked(s, BUTTON1, px, py), BUTTON3, px, py).zoomNum == s.zoomNum
    ensures Clicked(Clicked(s, BUTTON1, px, py), BUTTON3, px, py).history
         == Insert(s.history, s.zoomNum + 1, ZoomAt(s.bounds, px, py))
  {
    var t := Clicked(s, BUTTON1, px, py);
    assert t.history[s.zoomNum] == s.history[s.zoomNum];
  }

  /** Zoom-out at the initial view does nothing. */
  lemma ZoomOutAtInitialIsNoOp(s: Snapshot, px: int, py: int)
    requires Consistent(s) && s.zoomNum == 0
    ensures Clicked(s, BUTTON3, px, py) == s
  {
  }

  /** Clicks with any button other than BUTTON1 and BUTTON3 change nothing. */
  lemma OtherButtonIsIgnored(s: Snapshot, button: int, px: int, py: int)
    requires Consistent(s) && button != BUTTON1 && button != BUTTON3
    ensures Clicked(s, button, px, py) == s
  {
  }

  /** The end-to-end example: a primary click at the pixel of (-1, 0) in the
    * initial view yields the 0.8 by 0.6 view centred on (-1, 0) at depth 1. */
  lemma FirstZoomExample()
    ensures Clicked(Initial(), BUTTON1, 750, 750)
         == Snapshot(Bounds(-1.4, -0.6, 0.3, -0.3), [INITIAL, Bounds(-1.4, -0.6, 0.3, -0.3)], 1)
  {
    ZoomAtInitialExample();
  }

  /** ZOOM_FACTOR raised to the power k. */
  function Power(base: real, k: nat): (r: real)
    ensures base > 0.0 ==> r > 0.0
  {
    if k == 0 then 1.0 else base * Power(base, k - 1)
  }

  /** A run of primary clicks at the given pixels, one after the other. */
  function ZoomedInAll(s: Snapshot, clicks: seq<(int, int)>): (r: Snapshot)
    requires Consistent(s)
    ensures Consistent(r)
    decreases |clicks|
  {
    if clicks == [] then s
    else ZoomedInAll(ZoomedIn(s, clicks[0].0, clicks[0].1), clicks[1..])
  }

  /** A run of k secondary clicks. */
  function ZoomedOutTimes(s: Snapshot, k: nat): (r: Snapshot)
    requires Consistent(s)
    ensures Consistent(r)
    decreases k
  {
    if k == 0 then s else ZoomedOutTimes(ZoomedOut(s), k - 1)
  }

  /** After k zoom-ins, wherever the clicks land, the width and the height are
    * the starting ones divided by ZOOM_FACTOR^k. */
  lemma {:induction false} ZoomedInAllShrinks(s: Snapshot, clicks: seq<(int, int)>)
    requires Consistent(s)
    ensures Width(ZoomedInAll(s, clicks).bounds) == Width(s.bounds) / Power(ZOOM_FACTOR, |clicks|)
    ensures Height(ZoomedInAll(s, clicks).bounds) == Height(s.bounds) / Power(ZOOM_FACTOR, |clicks|)
    decreases |clicks|
  {
    if clicks != [] {
      var t := ZoomedIn(s, clicks[0].0, clicks[0].1);
      var u := ZoomedInAll(t, clicks[1..]);
      assert ZoomedInAll(s, clicks) == u;
      ZoomedInAllShrinks(t, clicks[1..]);
      var p := Power(ZOOM_FACTOR, |clicks| - 1);
      assert Power(ZOOM_FACTOR, |clicks|) == ZOOM_FACTOR * p;
      ShrinkTwice(Width(s.bounds), Width(t.bounds), Width(u.bounds), p);
      ShrinkTwice(Height(s.bounds), Height(t.bounds), Height(u.bounds), p);
    }
  }

  /** One zoom-in followed by a shrink by p shrinks by ZOOM_FACTOR * p. */
  lemma ShrinkTwice(w: real, once: real, after: real, p: real)
    requires p > 0.0
    requires once == w / ZOOM_FACTOR && after == once / p
    ensures after == w / (ZOOM_FACTOR * p)
  {
  }

  /** After k zoom-ins the cursor has advanced by k, the history has grown by
    * k, and its entries up to the old cursor are kept. */
  lemma {:induction false} ZoomedInAllKeepsPrefix(s: Snapshot, clicks: seq<(int, int)>)
    requires Consistent(s)
    ensures ZoomedInAll(s, clicks).zoomNum == s.zoomNum + |clicks|
    ensures |ZoomedInAll(s, clicks).history| == |s.history| + |clicks|
    ensures ZoomedInAll(s, clicks).history[..s.zoomNum + 1] == s.history[..s.zoomNum + 1]
    decreases |clicks|
  {
    if clicks != [] {
      var t := ZoomedIn(s, clicks[0].0, clicks[0].1);
      var u := ZoomedInAll(t, clicks[1..]);
      assert ZoomedInAll(s, clicks) == u;
      ZoomInShiftsHistory(s, clicks[0].0, clicks[0].1);
      ZoomedInAllKeepsPrefix(t, clicks[1..]);
      assert t.history[..s.zoomNum + 1] == s.history[..s.zoomNum + 1];
      assert u.history[..s.zoomNum + 1] == u.history[..t.zoomNum + 1][..s.zoomNum + 1];
    }
  }

  /** k zoom-outs from cursor c at least k land on the entry c - k. */
  lemma {:induction false} ZoomedOutTimesLands(s: Snapshot, k: nat)
    requires Consistent(s) && k <= s.zoomNum
    ensures ZoomedOutTimes(s, k) == Snapshot(s.history[s.zoomNum - k], s.history, s.zoomNum - k)
    decreases k
  {
    if k > 0 {
      ZoomedOutTimesLands(ZoomedOut(s), k - 1);
    }
  }

  /** Any run of zoom-ins undone by as many zoom-outs restores the bounds and
    * the cursor it started from. */
  lemma ZoomInsUndoneByZoomOuts(s: Snapshot, clicks: seq<(int, int)>)
    requires Consistent(s)
    ensures ZoomedOutTimes(ZoomedInAll(s, clicks), |clicks|).bounds == s.bounds
    ensures ZoomedOutTimes(ZoomedInAll(s, clicks), |clicks|).zoomNum == s.zoomNum
  {
    var t := ZoomedInAll(s, clicks);
    ZoomedInAllKeepsPrefix(s, clicks);
    ZoomedOutTimesLands(t, |clicks|);
    assert t.history[s.zoomNum] == t.history[..s.zoomNum + 1][s.zoomNum];
  }
}
