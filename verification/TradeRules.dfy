/** How a simulated trade ends and what it records, bar by bar (app/services/backtest.py:133-168, 243-296). */
module TradeRules {
  import opened IndicatorRows
  import opened ReplayTrades

  /** The first bar that reaches the stop or on which an exit is approved; the number of bars if there is none. */
  ghost predicate LeavesAt(stop: real, bars: seq<Bar>, exits: seq<bool>, j: nat)
    requires |exits| == |bars|
  {
    && j <= |bars| && (forall i :: 0 <= i < j ==> bars[i].low > stop && !exits[i])
    && (j < |bars| ==> bars[j].low <= stop || exits[j])
  }

  /** `r` is a price's distance from the entry in units of the initial risk. */
  predicate InRisks(entry: real, stop: real, price: real, r: real) {
    if stop < entry then r * (entry - stop) == price - entry else r == 0.0
  }

  /** The greatest result any of the first `n` highs stood for, and the least of the lows; at least and at most none. */
  ghost predicate Extremes(entry: real, stop: real, bars: seq<Bar>, n: nat, maxR: real, minR: real)
    requires n <= |bars|
  {
    && maxR >= 0.0 && minR <= 0.0
    && (forall i, r :: 0 <= i < n && InRisks(entry, stop, bars[i].high, r) ==> r <= maxR)
    && (forall i, r :: 0 <= i < n && InRisks(entry, stop, bars[i].low, r) ==> minR <= r)
    && (maxR == 0.0 || exists i :: 0 <= i < n && InRisks(entry, stop, bars[i].high, maxR))
    && (minR == 0.0 || exists i :: 0 <= i < n && InRisks(entry, stop, bars[i].low, minR))
  }

  /** The end of a trade at a stop that is below its entry. */
  ghost predicate Ends(entry: real, stop: real, entryBar: Bar, bars: seq<Bar>, exits: seq<bool>, j: nat, c: ClosedTrade)
    requires |exits| == |bars| && j <= |bars|
  {
    && LeavesAt(stop, bars, exits, j) && c.holdingBars == (if j < |bars| then j + 1 else j)
    && Extremes(entry, stop, bars, c.holdingBars, c.maxR, c.minR) && InRisks(entry, stop, c.exitPrice, c.finalR)
    && if j == |bars| then
         c.reason.EndOfBacktest? && var last := if bars == [] then entryBar else bars[|bars| - 1]; c.exitTs == last.ts && c.exitPrice == last.close
       else if bars[j].low <= stop then c.reason.HardStop? && c.exitTs == bars[j].ts && c.exitPrice == stop
       else c.reason.ExitSignal? && c.exitTs == bars[j].ts && c.exitPrice == bars[j].close
  }

  // ----------------------------------------------------------------- proofs

  lemma InRIs(entry: real, stop: real, price: real)
    ensures forall r :: InRisks(entry, stop, price, r) <==> r == InR(entry, stop, price)
  {
    if stop < entry {
      var risk := entry - stop;
      var x := InR(entry, stop, price);
      assert x * risk == price - entry;
      forall r | InRisks(entry, stop, price, r) ensures r == x {
        assert (r - x) * risk == 0.0;
      }
    }
  }

  /** What a trade has seen after the first `n` bars. */
  ghost predicate HasSeen(t: Trade, entry: real, stop: real, bars: seq<Bar>, n: nat)
    requires n <= |bars|
  {
    t.entry == entry && t.stop == stop && t.holdingBars == n && Extremes(entry, stop, bars, n, t.maxR, t.minR)
  }

  lemma SeesOneMore(t: Trade, entry: real, stop: real, bars: seq<Bar>, n: nat)
    requires n < |bars| && HasSeen(t, entry, stop, bars, n)
    ensures HasSeen(Seen(t, bars[n]), entry, stop, bars, n + 1)
  {
    hide InR, InRisks;
    InRIs(entry, stop, bars[n].high);
    InRIs(entry, stop, bars[n].low);
    var high, low := InR(entry, stop, bars[n].high), InR(entry, stop, bars[n].low);
    assert InRisks(entry, stop, bars[n].high, high) && InRisks(entry, stop, bars[n].low, low);
    var q := Seen(t, bars[n]);
    if q.maxR != 0.0 && q.maxR == t.maxR {
      var i :| 0 <= i < n && InRisks(entry, stop, bars[i].high, t.maxR);
      assert InRisks(entry, stop, bars[i].high, q.maxR);
    }
    if q.minR != 0.0 && q.minR == t.minR {
      var i :| 0 <= i < n && InRisks(entry, stop, bars[i].low, t.minR);
      assert InRisks(entry, stop, bars[i].low, q.minR);
    }
  }

  lemma {:induction false} LifeFrom(t: Trade, entry: real, stop: real, entryBar: Bar, bars: seq<Bar>, exits: seq<bool>, n: nat) returns (j: nat)
    requires |exits| == |bars| && n <= |bars| && stop < entry && HasSeen(t, entry, stop, bars, n)
    requires forall i :: 0 <= i < n ==> bars[i].low > stop && !exits[i]
    ensures j <= |bars| && Ends(entry, stop, entryBar, bars, exits, j, Life(t, if n == 0 then entryBar else bars[n - 1], bars[n..], exits[n..]))
    decreases |bars| - n
  {
    hide Extremes, InRisks;
    var last := if n == 0 then entryBar else bars[n - 1];
    if n == |bars| {
      j := n;
      InRIs(entry, stop, last.close);
    } else {
      var bar, seen := bars[n], Seen(t, bars[n]);
      SeesOneMore(t, entry, stop, bars, n);
      assert bars[n..][0] == bar && bars[n..][1..] == bars[n + 1..] && exits[n..][0] == exits[n] && exits[n..][1..] == exits[n + 1..];
      if bar.low <= stop || exits[n] {
        j := n;
        InRIs(entry, stop, stop);
        InRIs(entry, stop, bar.close);
      } else {
        j := LifeFrom(seen, entry, stop, entryBar, bars, exits, n + 1);
      }
    }
  }

  /**
   A trade ends on the first bar that reaches its stop, at the stop, or on the first with an approved
   exit, at the close, or at the last close; it records the bars it held and the extremes they reached.
   A stop that is not below the entry is refused at the first later close, with nothing recorded.
   */
  lemma TradeEndsByRule(entry: real, stop: real, entryBar: Bar, bars: seq<Bar>, exits: seq<bool>)
    requires |exits| == |bars|
    ensures var c := Life(Trade(entry, stop, 0.0, 0.0, 0), entryBar, bars, exits);
      if stop < entry then exists j :: 0 <= j <= |bars| && Ends(entry, stop, entryBar, bars, exits, j, c)
      else
        var at := if bars == [] then entryBar else bars[0];
        c == ClosedTrade(at.ts, at.close, if bars == [] then EndOfBacktest else InvalidRisk, 0.0, 0.0, 0.0, 0)
  {
    if stop < entry {
      var j := LifeFrom(Trade(entry, stop, 0.0, 0.0, 0), entry, stop, entryBar, bars, exits, 0);
      assert bars[0..] == bars && exits[0..] == exits;
    }
  }
}
