/**
 * The dartboard object: a three-stage state machine (constructed,
 * initialised, drawn) that classifies hits and keeps one counter per zone.
 *
 * The drawing surface and the observer callback are outside the model. The
 * drawing surface appears only as the ghost log `renderRequests`, which
 * records what the board asks it to do. The callback appears only as the
 * ghost list `notifications` of the counter tables it receives.
 */
module Board {
  import opened Zones
  import opened Counters

  /** What the board asks of the drawing surface. */
  datatype RenderRequest =
    | DrawBoard     // paint the rings and the sector lines
    | MarkHit       // paint a marker where the dart landed
    | ClearSurface  // wipe the whole surface

  class Dartboard {
    /** The fixed radii and magnification. */
    const geometry: Geometry
    /** Whether an observer callback was supplied at construction. */
    const hasCallback: bool

    var initCalled: bool
    var boardDrawn: bool
    var width: real
    var height: real
    /** Empty until initialisation, then the centre's [x, y]. */
    var coordinatesCenter: seq<int>
    var hitAmounts: Counts

    /** Every counter table handed to the observer, oldest first. */
    ghost var notifications: seq<Counts>
    /** Every request made to the drawing surface, oldest first. */
    ghost var renderRequests: seq<RenderRequest>

    /**
     * The stages only advance in order. Once initialised, the surface has
     * the magnified board's size, the centre is its midpoint and all eight
     * counters exist.
     */
    ghost predicate Valid()
      reads this
    {
      && Ordered(geometry)
      && (boardDrawn ==> initCalled)
      && (initCalled ==>
            && width == SurfaceSide(geometry)
            && height == width
            && coordinatesCenter == [CenterCoordinate(geometry), CenterCoordinate(geometry)]
            && Complete(hitAmounts))
    }

    constructor (hasCallback: bool)
      ensures Valid()
      ensures geometry == DefaultGeometry && this.hasCallback == hasCallback
      ensures !initCalled && !boardDrawn
      ensures width == 0.0 && height == 0.0 && coordinatesCenter == []
      ensures hitAmounts == map[]
      ensures notifications == [] && renderRequests == []
    {
      geometry := DefaultGeometry;
      this.hasCallback := hasCallback;
      initCalled := false;
      boardDrawn := false;
      width := 0.0;
      height := 0.0;
      coordinatesCenter := [];
      hitAmounts := map[];
      notifications := [];
      renderRequests := [];
    }

    /**
     * Derives the surface size and centre and zeroes the counters. The
     * drawn flag is left as it was.
     */
    method Init()
      requires Valid()
      modifies this
      ensures Valid() && initCalled
      ensures width == height == SurfaceSide(geometry)
      ensures coordinatesCenter == [RoundHalfUp(width / 2.0), RoundHalfUp(width / 2.0)]
      ensures hitAmounts == DefaultHitAmounts()
      ensures boardDrawn == old(boardDrawn)
      ensures notifications == old(notifications) && renderRequests == old(renderRequests)
    {
      initCalled := true;
      width := 2.0 * (geometry.increaseFactor * geometry.distBoardEdge);
      height := width;
      coordinatesCenter := [RoundHalfUp(width / 2.0), RoundHalfUp(width / 2.0)];
      ResetHitAmounts();
    }

    /**
     * Draws the board, which is allowed only after initialisation. Before
     * that nothing changes and `ok` is false (the usage error is reported
     * to the user).
     */
    method Draw() returns (ok: bool)
      requires Valid()
      modifies this
      ensures Valid()
      ensures ok == old(initCalled)
      ensures boardDrawn == (old(boardDrawn) || ok)
      ensures renderRequests == old(renderRequests) + (if ok then [DrawBoard] else [])
      ensures initCalled == old(initCalled) && hitAmounts == old(hitAmounts)
      ensures width == old(width) && height == old(height)
      ensures coordinatesCenter == old(coordinatesCenter)
      ensures notifications == old(notifications)
    {
      if !initCalled {
        ok := false;
      } else {
        renderRequests := renderRequests + [DrawBoard];
        boardDrawn := true;
        ok := true;
      }
    }

    /**
     * A click whose distance from the centre, rounded to whole pixels, is
     * `pixelDistance`. Ignored (`accepted` false) until the board is drawn;
     * otherwise marked on the surface and counted at the distance in
     * millimetres.
     */
    method Hit(pixelDistance: nat) returns (accepted: bool)
      requires Valid()
      modifies this
      ensures Valid()
      ensures accepted == old(boardDrawn)
      ensures !accepted ==>
        && hitAmounts == old(hitAmounts)
        && notifications == old(notifications)
        && renderRequests == old(renderRequests)
      ensures accepted ==>
        var zone := Classify(geometry, BoardDistance(geometry, pixelDistance));
        && hitAmounts == Tally(old(hitAmounts), zone)
        && notifications == old(notifications) + (if hasCallback then [hitAmounts] else [])
        && renderRequests == old(renderRequests) + [MarkHit]
             + (if zone == MissedBoard then [ClearSurface, DrawBoard] else [])
      ensures boardDrawn == old(boardDrawn) && initCalled == old(initCalled)
      ensures width == old(width) && height == old(height)
      ensures coordinatesCenter == old(coordinatesCenter)
    {
      if !boardDrawn {
        return false;
      }
      renderRequests := renderRequests + [MarkHit];
      var d := pixelDistance as real / geometry.increaseFactor;
      GetArea(d);
      accepted := true;
    }

    /**
     * Counts a hit at `distance` millimetres from the centre: the first
     * radius the distance is strictly below decides the zone. A hit off
     * the board resets the session. The observer is then notified once.
     */
    method GetArea(distance: real)
      requires Valid() && initCalled
      modifies this
      ensures Valid()
      ensures hitAmounts == Tally(old(hitAmounts), Classify(geometry, distance))
      ensures notifications == old(notifications) + (if hasCallback then [hitAmounts] else [])
      ensures renderRequests == old(renderRequests)
        + (if Classify(geometry, distance) == MissedBoard then [ClearSurface, DrawBoard] else [])
      ensures boardDrawn == (old(boardDrawn) || Classify(geometry, distance) == MissedBoard)
      ensures initCalled && width == old(width) && height == old(height)
      ensures coordinatesCenter == old(coordinatesCenter)
    {
      if distance < geometry.distDoubleBull {
        hitAmounts := hitAmounts[Bullseye := hitAmounts[Bullseye] + 1];
      } else if distance < geometry.distSingleBull {
        hitAmounts := hitAmounts[SingleBull := hitAmounts[SingleBull] + 1];
      } else if distance < geometry.distInnerTriple {
        hitAmounts := hitAmounts[InnerSingle := hitAmounts[InnerSingle] + 1];
      } else if distance < geometry.distOuterTriple {
        hitAmounts := hitAmounts[Triple := hitAmounts[Triple] + 1];
      } else if distance < geometry.distInnerDouble {
        hitAmounts := hitAmounts[OuterSingle := hitAmounts[OuterSingle] + 1];
      } else if distance < geometry.distOuterDouble {
        hitAmounts := hitAmounts[Double := hitAmounts[Double] + 1];
      } else if distance < geometry.distBoardEdge {
        hitAmounts := hitAmounts[MissedScores := hitAmounts[MissedScores] + 1];
      } else {
        hitAmounts := hitAmounts[MissedBoard := hitAmounts[MissedBoard] + 1];
        Reset();
      }
      Notify();
    }

    /** Hands the current counters to the observer, if there is one. */
    method Notify()
      modifies this`notifications
      ensures notifications == old(notifications) + (if hasCallback then [hitAmounts] else [])
    {
      if hasCallback {
        notifications := notifications + [hitAmounts];
      }
    }

    /**
     * Starts a new session: wipes the surface, zeroes the counters and draws
     * the board again (which succeeds, since initialisation has happened).
     */
    method Reset()
      requires Valid() && initCalled
      modifies this
      ensures Valid() && boardDrawn
      ensures hitAmounts == DefaultHitAmounts()
      ensures renderRequests == old(renderRequests) + [ClearSurface, DrawBoard]
      ensures initCalled && width == old(width) && height == old(height)
      ensures coordinatesCenter == old(coordinatesCenter)
      ensures notifications == old(notifications)
    {
      renderRequests := renderRequests + [ClearSurface];
      ResetHitAmounts();
      var ok := Draw();
    }

    /** Replaces the counters with a fresh all-zero table. */
    method ResetHitAmounts()
      modifies this`hitAmounts
      ensures hitAmounts == DefaultHitAmounts()
    {
      hitAmounts := DefaultHitAmounts();
    }
  }

  /**
   * What a run of hits at the given distances asks of the drawing surface:
   * a marker per hit, and after a hit off the board a wipe and a redraw.
   */
  function Requests(g: Geometry, ds: seq<real>): (rs: seq<RenderRequest>)
    ensures |ds| <= |rs| <= 3 * |ds|
  {
    if ds == [] then []
    else
      [MarkHit] + (if Classify(g, ds[0]) == MissedBoard then [ClearSurface, DrawBoard] else [])
      + Requests(g, ds[1..])
  }

  /** The snapshots an observer receives: all of them, or none without a callback. */
  function Observed(notified: bool, snapshots: seq<Counts>): (r: seq<Counts>)
    ensures r == [] || r == snapshots
  {
    if notified then snapshots else []
  }

  /**
   * One more hit keeps the bookkeeping of a run of hits: what is already
   * counted, notified and requested, followed by what the remaining hits
   * will add, is the same before and after hit i.
   */
  lemma {:induction false} RunStep(g: Geometry, ds: seq<real>, i: nat, start: Counts, notified: bool,
                                   counts: Counts, seen: seq<Counts>, asked: seq<RenderRequest>,
                                   seen0: seq<Counts>, asked0: seq<RenderRequest>)
    requires Complete(start) && Complete(counts) && i < |ds|
    requires Replay(g, counts, ds[i..]) == Replay(g, start, ds)
    requires seen + Observed(notified, Trace(g, counts, ds[i..]))
      == seen0 + Observed(notified, Trace(g, start, ds))
    requires asked + Requests(g, ds[i..]) == asked0 + Requests(g, ds)
    ensures var zone := Classify(g, ds[i]);
      var next := Tally(counts, zone);
      && Replay(g, next, ds[i + 1..]) == Replay(g, start, ds)
      && (seen + Observed(notified, [next])) + Observed(notified, Trace(g, next, ds[i + 1..]))
         == seen0 + Observed(notified, Trace(g, start, ds))
      && (asked + [MarkHit] + (if zone == MissedBoard then [ClearSurface, DrawBoard] else []))
           + Requests(g, ds[i + 1..])
         == asked0 + Requests(g, ds)
  {
    var zone := Classify(g, ds[i]);
    var next := Tally(counts, zone);
    var extra := if zone == MissedBoard then [ClearSurface, DrawBoard] else [];
    ReplayFrom(g, counts, ds, i);
    assert ds[i..][0] == ds[i] && ds[i..][1..] == ds[i + 1..];
    assert Requests(g, ds[i..]) == [MarkHit] + extra + Requests(g, ds[i + 1..]);
    assert (asked + [MarkHit] + extra) + Requests(g, ds[i + 1..])
      == asked + ([MarkHit] + extra + Requests(g, ds[i + 1..]));
    if notified {
      assert (seen + [next]) + Trace(g, next, ds[i + 1..]) == seen + ([next] + Trace(g, next, ds[i + 1..]));
    }
  }

  /**
   * Clicks delivered one after another, in order, to a drawn board, each
   * given by its rounded pixel distance from the centre. The counters end
   * as the replay of all the hits, the observer receives exactly one
   * snapshot per click (the trace of the hits), and the board stays drawn.
   */
  method HitAll(board: Dartboard, pixels: seq<nat>)
    requires board.Valid() && board.boardDrawn
    modifies board
    ensures board.Valid() && board.boardDrawn && board.initCalled
    ensures var ds := BoardDistances(board.geometry, pixels);
      && board.hitAmounts == Replay(board.geometry, old(board.hitAmounts), ds)
      && board.notifications
         == old(board.notifications) + Observed(board.hasCallback, Trace(board.geometry, old(board.hitAmounts), ds))
      && board.renderRequests == old(board.renderRequests) + Requests(board.geometry, ds)
    ensures board.width == old(board.width) && board.height == old(board.height)
    ensures board.coordinatesCenter == old(board.coordinatesCenter)
  {
    var g := board.geometry;
    ghost var ds := BoardDistances(g, pixels);
    ghost var start := board.hitAmounts;
    var i := 0;
    while i < |pixels|
      invariant 0 <= i <= |pixels|
      invariant board.Valid() && board.boardDrawn && board.initCalled
      invariant board.width == old(board.width) && board.height == old(board.height)
      invariant board.coordinatesCenter == old(board.coordinatesCenter)
      invariant Replay(g, board.hitAmounts, ds[i..]) == Replay(g, start, ds)
      invariant board.notifications + Observed(board.hasCallback, Trace(g, board.hitAmounts, ds[i..]))
        == old(board.notifications) + Observed(board.hasCallback, Trace(g, start, ds))
      invariant board.renderRequests + Requests(g, ds[i..])
        == old(board.renderRequests) + Requests(g, ds)
    {
      ghost var counts, seen, asked := board.hitAmounts, board.notifications, board.renderRequests;
      assert ds[i] == BoardDistance(g, pixels[i]);
      RunStep(g, ds, i, start, board.hasCallback, counts, seen, asked,
              old(board.notifications), old(board.renderRequests));
      var accepted := board.Hit(pixels[i]);
      i := i + 1;
    }
    assert ds[i..] == [];
  }

  /**
   * The standard board driven through its whole life cycle. A draw and a
   * click before initialisation are refused. Then the board is initialised
   * and drawn. Then come clicks at 10, 10, 100, 460 and 10 pixels from the
   * centre, which are 5, 5, 50, 230 and 5 mm. The click off the board wipes
   * the earlier ones, so one bullseye remains. The observer saw exactly the
   * snapshot sequence that Trace specifies.
   */
  method LifeCycle() returns (earlyDraw: bool, earlyHit: bool, side: real, center: seq<int>,
                              final: Counts, ghost seen: seq<Counts>)
    ensures !earlyDraw && !earlyHit
    ensures side == 896.0 && center == [448, 448]
    ensures final == DefaultHitAmounts()[Bullseye := 1]
    ensures seen == Trace(DefaultGeometry, DefaultHitAmounts(), [5.0, 5.0, 50.0, 230.0, 5.0])
  {
    var board := new Dartboard(true);
    earlyDraw := board.Draw();
    earlyHit := board.Hit(10);
    board.Init();
    DefaultSurface();
    side, center := board.width, board.coordinatesCenter;
    var drawn := board.Draw();
    var accepted := board.Hit(10);
    accepted := board.Hit(10);
    accepted := board.Hit(100);
    accepted := board.Hit(460);
    assert board.hitAmounts == DefaultHitAmounts();
    accepted := board.Hit(10);
    final := board.hitAmounts;
    seen := board.notifications;
    ghost var z := DefaultHitAmounts();
    ghost var t1 := Tally(z, Bullseye);
    ghost var t2 := Tally(t1, Bullseye);
    ghost var t3 := Tally(t2, InnerSingle);
    ghost var t4 := Tally(t3, MissedBoard);
    ghost var t5 := Tally(t4, Bullseye);
    assert seen == [t1, t2, t3, t4, t5];
    assert Trace(DefaultGeometry, t4, [5.0]) == [t5];
    assert Trace(DefaultGeometry, t3, [230.0, 5.0]) == [t4, t5];
    assert Trace(DefaultGeometry, t2, [50.0, 230.0, 5.0]) == [t3, t4, t5];
    assert Trace(DefaultGeometry, t1, [5.0, 50.0, 230.0, 5.0]) == [t2, t3, t4, t5];
  }
}
