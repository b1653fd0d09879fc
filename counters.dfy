/**
 * The per-zone hit counters and how a stream of classified hits changes
 * them.
 *
 * Each hit adds one to the counter of its zone. A hit off the board is
 * counted and then the whole table is wiped back to zeros, which restarts
 * the counting session.
 */
module Counters {
  import opened Zones

  /** A table of counters, one per zone. */
  type Counts = map<Zone, nat>

  /** Every one of the eight zones has a counter. */
  predicate Complete(c: Counts) {
    forall z: Zone :: z in c
  }

  /** The eight-key table with every counter at zero. */
  function DefaultHitAmounts(): (c: Counts)
    ensures Complete(c)
    ensures forall z: Zone :: c[z] == 0
  {
    var c := map[
      Bullseye := 0,
      SingleBull := 0,
      InnerSingle := 0,
      Triple := 0,
      OuterSingle := 0,
      Double := 0,
      MissedScores := 0,
      MissedBoard := 0];
    assert Complete(c) by {
      forall z: Zone ensures z in c {
        assert Rank(z) < 8;
      }
    }
    c
  }

  /** Sum of all eight counters. */
  function Total(c: Counts): nat
    requires Complete(c)
  {
    c[Bullseye] + c[SingleBull] + c[InnerSingle] + c[Triple]
    + c[OuterSingle] + c[Double] + c[MissedScores] + c[MissedBoard]
  }

  /**
   * The counters after one hit in zone z: that zone's counter goes up by
   * one; if the hit missed the board, the table is then reset to zeros.
   */
  function Tally(c: Counts, z: Zone): (r: Counts)
    requires Complete(c)
    ensures Complete(r)
  {
    var bumped := c[z := c[z] + 1];
    if z == MissedBoard then DefaultHitAmounts() else bumped
  }

  /**
   * A hit on the board raises exactly its own zone's counter by one and
   * leaves the other seven alone, so the total grows by one.
   */
  lemma TallyOnBoard(c: Counts, z: Zone)
    requires Complete(c) && z != MissedBoard
    ensures Tally(c, z)[z] == c[z] + 1
    ensures forall y: Zone :: y != z ==> Tally(c, z)[y] == c[y]
    ensures Total(Tally(c, z)) == Total(c) + 1
  {
  }

  /**
   * A hit off the board leaves every counter at zero, its own included.
   */
  lemma TallyOffBoard(c: Counts)
    requires Complete(c)
    ensures Tally(c, MissedBoard) == DefaultHitAmounts()
    ensures forall y: Zone :: Tally(c, MissedBoard)[y] == 0
    ensures Total(Tally(c, MissedBoard)) == 0
  {
  }

  /** The counters after a whole sequence of hits, given as distances. */
  function Replay(g: Geometry, c: Counts, ds: seq<real>): (r: Counts)
    requires Complete(c)
    ensures Complete(r)
    decreases |ds|
  {
    if ds == [] then c
    else Replay(g, Tally(c, Classify(g, ds[0])), ds[1..])
  }

  /**
   * The snapshots an observer receives: the counters right after each hit
   * of the sequence, one per hit.
   */
  function Trace(g: Geometry, c: Counts, ds: seq<real>): (t: seq<Counts>)
    requires Complete(c)
    ensures |t| == |ds|
    ensures forall i :: 0 <= i < |t| ==> Complete(t[i])
    decreases |ds|
  {
    if ds == [] then []
    else
      var next := Tally(c, Classify(g, ds[0]));
      [next] + Trace(g, next, ds[1..])
  }

  /**
   * Replaying (or tracing) the hits from position i on is the same as
   * counting hit i first and then replaying (or tracing) the rest.
   */
  lemma ReplayFrom(g: Geometry, c: Counts, ds: seq<real>, i: nat)
    requires Complete(c) && i < |ds|
    ensures var next := Tally(c, Classify(g, ds[i]));
      && Replay(g, c, ds[i..]) == Replay(g, next, ds[i + 1..])
      && Trace(g, c, ds[i..]) == [next] + Trace(g, next, ds[i + 1..])
  {
    assert ds[i..][0] == ds[i] && ds[i..][1..] == ds[i + 1..];
  }

  /** Each snapshot is the previous one updated by exactly one hit. */
  lemma {:induction false} TraceStep(g: Geometry, c: Counts, ds: seq<real>, i: nat)
    requires Complete(c) && i < |ds|
    ensures var t := Trace(g, c, ds);
      t[i] == Tally(if i == 0 then c else t[i - 1], Classify(g, ds[i]))
  {
    if i > 0 {
      var next := Tally(c, Classify(g, ds[0]));
      TraceStep(g, next, ds[1..], i - 1);
    }
  }

  /** The last snapshot is the final state of the counters. */
  lemma {:induction false} TraceEndsInReplay(g: Geometry, c: Counts, ds: seq<real>)
    requires Complete(c) && ds != []
    ensures Trace(g, c, ds)[|ds| - 1] == Replay(g, c, ds)
  {
    if |ds| > 1 {
      TraceEndsInReplay(g, Tally(c, Classify(g, ds[0])), ds[1..]);
    }
  }

  /** How many distances of ds fall into zone z. */
  function CountIn(g: Geometry, ds: seq<real>, z: Zone): (n: nat)
    ensures n <= |ds|
  {
    if ds == [] then 0
    else (if Classify(g, ds[0]) == z then 1 else 0) + CountIn(g, ds[1..], z)
  }

  /** No distance of ds misses the board. */
  predicate OnBoard(g: Geometry, ds: seq<real>) {
    forall i :: 0 <= i < |ds| ==> Classify(g, ds[i]) != MissedBoard
  }

  /**
   * Without a miss, every counter ends up as its start value plus the
   * number of hits in its zone (the histogram of the hits), and the total
   * grows by the number of hits.
   */
  lemma {:induction false} ReplayIsHistogram(g: Geometry, c: Counts, ds: seq<real>, z: Zone)
    requires Complete(c) && OnBoard(g, ds)
    ensures Replay(g, c, ds)[z] == c[z] + CountIn(g, ds, z)
    ensures Total(Replay(g, c, ds)) == Total(c) + |ds|
  {
    if ds != [] {
      var y := Classify(g, ds[0]);
      assert y != MissedBoard;
      TallyOnBoard(c, y);
      assert OnBoard(g, ds[1..]) by {
        forall i | 0 <= i < |ds[1..]| ensures Classify(g, ds[1..][i]) != MissedBoard {
          assert ds[1..][i] == ds[i + 1];
        }
      }
      ReplayIsHistogram(g, Tally(c, y), ds[1..], z);
    }
  }

  /**
   * A miss restarts the session: what came before it has no influence on
   * the final counters, which are those of the hits after it counted from
   * zero.
   */
  lemma {:induction false} ReplayRestartsAfterMiss(g: Geometry, c: Counts, ds: seq<real>, i: nat)
    requires Complete(c) && i < |ds| && Classify(g, ds[i]) == MissedBoard
    ensures Replay(g, c, ds) == Replay(g, DefaultHitAmounts(), ds[i + 1..])
  {
    if i == 0 {
      assert Tally(c, Classify(g, ds[0])) == DefaultHitAmounts();
    } else {
      assert ds[1..][i - 1] == ds[i];
      assert ds[1..][i - 1 + 1..] == ds[i + 1..];
      ReplayRestartsAfterMiss(g, Tally(c, Classify(g, ds[0])), ds[1..], i - 1);
    }
  }

  /**
   * Distances 5, 5, 50, 230, 5 on the standard board: the miss at 230 wipes
   * the two earlier bullseyes, so only the last one is left.
   */
  lemma DefaultSequence()
    ensures Replay(DefaultGeometry, DefaultHitAmounts(), [5.0, 5.0, 50.0, 230.0, 5.0])
      == DefaultHitAmounts()[Bullseye := 1]
  {
  }
}
