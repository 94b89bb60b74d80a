/** The life of one simulated trade in the replay: app/services/backtest.py:133-168 and 243-296. */
module ReplayTrades {
  import opened Common
  import opened IndicatorRows

  datatype ExitReason = HardStop | InvalidRisk | ExitSignal | EndOfBacktest

  datatype ClosedTrade = ClosedTrade(
    exitTs: int, exitPrice: real, reason: ExitReason, maxR: real, minR: real, finalR: real, holdingBars: nat)

  /** A result in units of the initial risk. */
  function InR(entry: real, stop: real, price: real): real {
    if entry - stop > 0.0 then (price - entry) / (entry - stop) else 0.0
  }

  /** What a trade has seen so far. */
  datatype Trade = Trade(entry: real, stop: real, maxR: real, minR: real, holdingBars: nat)

  function Finished(t: Trade, ts: int, price: real, reason: ExitReason): ClosedTrade {
    ClosedTrade(ts, price, reason, t.maxR, t.minR, InR(t.entry, t.stop, price), t.holdingBars)
  }

  function Seen(t: Trade, bar: Bar): Trade {
    t.(maxR := MaxReal(t.maxR, InR(t.entry, t.stop, bar.high)), minR := MinReal(t.minR, InR(t.entry, t.stop, bar.low)),
       holdingBars := t.holdingBars + 1)
  }

  /** The trade through the bars after its entry; `exits` says after which of them an exit signal is approved. */
  function Life(t: Trade, last: Bar, bars: seq<Bar>, exits: seq<bool>): ClosedTrade
    requires |exits| == |bars|
    decreases |bars|
  {
    if bars == [] then Finished(t, last.ts, last.close, EndOfBacktest)
    else if t.entry - t.stop <= 0.0 then Finished(t, bars[0].ts, bars[0].close, InvalidRisk)
    else
      var seen := Seen(t, bars[0]);
      if bars[0].low <= t.stop then Finished(seen, bars[0].ts, t.stop, HardStop)
      else if exits[0] then Finished(seen, bars[0].ts, bars[0].close, ExitSignal)
      else Life(seen, bars[0], bars[1..], exits[1..])
  }

  predicate Sound(bar: Bar) {
    bar.low <= bar.close <= bar.high
  }

  lemma OrderedInR(entry: real, stop: real, p: real, q: real)
    requires stop < entry && p <= q
    ensures InR(entry, stop, p) <= InR(entry, stop, q)
    ensures p < q ==> InR(entry, stop, p) < InR(entry, stop, q)
    ensures InR(entry, stop, stop) == -1.0 && InR(entry, stop, entry) == 0.0
  {
    var risk := entry - stop;
    assert InR(entry, stop, p) * risk == p - entry;
    assert InR(entry, stop, q) * risk == q - entry;
    assert stop - entry == -risk && -risk / risk == -1.0;
  }

  /** The trade has seen the bar's close: it lies inside the extremes and above the stop. */
  ghost predicate Covers(t: Trade, last: Bar) {
    t.stop < t.entry && t.stop < last.close && t.minR <= InR(t.entry, t.stop, last.close) <= t.maxR && t.minR <= 0.0 <= t.maxR
  }

  /** A trade that covers its last bar ends between its extremes, at -1R if the hard stop closes it and above otherwise. */
  lemma {:induction false} CoveredTradeStopsAtOneR(t: Trade, last: Bar, bars: seq<Bar>, exits: seq<bool>)
    requires |exits| == |bars| && Covers(t, last) && forall k :: 0 <= k < |bars| ==> Sound(bars[k])
    ensures var c := Life(t, last, bars, exits);
      && c.minR <= c.finalR <= c.maxR
      && c.finalR >= -1.0 && (c.finalR == -1.0 <==> c.reason.HardStop?) && !c.reason.InvalidRisk?
    decreases |bars|
  {
    OrderedInR(t.entry, t.stop, t.stop, last.close);
    if bars != [] {
      var bar, seen := bars[0], Seen(t, bars[0]);
      assert Sound(bar);
      OrderedInR(t.entry, t.stop, bar.low, bar.close);
      OrderedInR(t.entry, t.stop, bar.close, bar.high);
      if bar.low <= t.stop {
        OrderedInR(t.entry, t.stop, bar.low, t.stop);
      } else {
        OrderedInR(t.entry, t.stop, t.stop, bar.close);
        hide InR, Life;
        CoveredTradeStopsAtOneR(seen, bar, bars[1..], exits[1..]);
      }
    }
  }

  /** An entry is a trade that has seen nothing but its own entry price. */
  lemma EntryCovers(t: Trade, last: Bar)
    requires t.stop < t.entry && t.maxR == 0.0 && t.minR == 0.0 && last.close == t.entry
    ensures Covers(t, last)
  {
    OrderedInR(t.entry, t.stop, t.entry, t.entry);
    OrderedInR(t.entry, t.stop, t.stop, t.entry);
  }

  /**
   From its entry bar on, whatever the bars and whenever it ends, a trade loses at most one R, exactly
   one R when and only when the hard stop closed it, and its result lies between the extremes it saw.
   Its risk is refused at the first later bar exactly when its stop is not below its entry.
   */
  lemma NoTradeLosesMoreThanOneR(entry: real, stop: real, entryBar: Bar, bars: seq<Bar>, exits: seq<bool>)
    requires |exits| == |bars| && forall k :: 0 <= k < |bars| ==> Sound(bars[k])
    requires bars == [] ==> entryBar.close == entry
    ensures var c := Life(Trade(entry, stop, 0.0, 0.0, 0), entryBar, bars, exits);
      && c.minR <= c.finalR <= c.maxR
      && c.finalR >= -1.0 && (c.finalR == -1.0 <==> c.reason.HardStop?)
      && (c.reason.InvalidRisk? <==> bars != [] && entry <= stop)
  {
    if stop < entry {
      var t, bar := Trade(entry, stop, 0.0, 0.0, 0), entryBar.(close := entry);
      EntryCovers(t, bar);
      CoveredTradeStopsAtOneR(t, bar, bars, exits);
      assert bars != [] ==> Life(t, entryBar, bars, exits) == Life(t, bar, bars, exits);
    }
  }

  class ActiveReplayTrade {
    const entry: real
    const stop: real
    var maxR: real
    var minR: real
    var holdingBars: nat

    constructor (entry: real, stop: real)
      ensures Snapshot() == Trade(entry, stop, 0.0, 0.0, 0)
    {
      this.entry, this.stop, maxR, minR, holdingBars := entry, stop, 0.0, 0.0, 0;
    }

    ghost function Snapshot(): Trade
      reads this
    {
      Trade(entry, stop, maxR, minR, holdingBars)
    }

    method Finish(ts: int, price: real, reason: ExitReason) returns (closed: ClosedTrade)
      ensures closed == Finished(Snapshot(), ts, price, reason)
    {
      closed := ClosedTrade(ts, price, reason, maxR, minR, InR(entry, stop, price), holdingBars);
    }

    /** `_apply_bar_risk`. */
    method ApplyBarRisk(bar: Bar) returns (closed: Option<ClosedTrade>)
      modifies this
      ensures var t := old(Snapshot());
        if entry - stop <= 0.0 then Snapshot() == t && closed == Some(Finished(t, bar.ts, bar.close, InvalidRisk))
        else Snapshot() == Seen(t, bar) && closed == if bar.low <= stop then Some(Finished(Snapshot(), bar.ts, stop, HardStop)) else None
    {
      var riskPerShare := entry - stop;
      if riskPerShare <= 0.0 {
        var c := Finish(bar.ts, bar.close, InvalidRisk);
        return Some(c);
      }
      holdingBars := holdingBars + 1;
      maxR := MaxReal(maxR, (bar.high - entry) / riskPerShare);
      minR := MinReal(minR, (bar.low - entry) / riskPerShare);
      if bar.low <= stop {
        var c := Finish(bar.ts, stop, HardStop);
        return Some(c);
      }
      closed := None;
    }
  }

  /** The replay loop as one trade sees it. */
  method FollowTrade(trade: ActiveReplayTrade, entryBar: Bar, bars: seq<Bar>, exits: seq<bool>) returns (closed: ClosedTrade)
    requires |exits| == |bars|
    modifies trade
    ensures closed == Life(old(trade.Snapshot()), entryBar, bars, exits)
  {
    var last := entryBar;
    assert bars[0..] == bars && exits[0..] == exits;
    for i := 0 to |bars|
      invariant Life(old(trade.Snapshot()), entryBar, bars, exits) == Life(trade.Snapshot(), last, bars[i..], exits[i..])
    {
      assert bars[i..][1..] == bars[i + 1..] && exits[i..][1..] == exits[i + 1..];
      var stopped := trade.ApplyBarRisk(bars[i]);
      if stopped.Some? {
        return stopped.value;
      }
      if exits[i] {
        closed := trade.Finish(bars[i].ts, bars[i].close, ExitSignal);
        return;
      }
      last := bars[i];
    }
    closed := trade.Finish(last.ts, last.close, EndOfBacktest);
  }
}
