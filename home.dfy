/** The statistics and map pins of views/Home.tsx, over the saved history. */
module HomeView {
  import opened Types

  /** totalForecasts: every saved forecast is counted under exactly one
      planning type. */
  function TotalForecasts(history: seq<ForecastData>): (t: nat)
    ensures t == CountPlans(history, General) + CountPlans(history, Zoning)
               + CountPlans(history, Detailed) + CountPlans(history, Other)
  {
    CountsPartitionHistory(history);
    |history|
  }

  /** `history.filter(f => f.planningType === pt).length`. */
  function CountPlans(history: seq<ForecastData>, pt: PlanningType): (n: nat)
    ensures n <= |history|
  {
    if |history| == 0 then 0
    else CountPlans(history[..|history| - 1], pt)
         + (if history[|history| - 1].planningType == pt then 1 else 0)
  }

  /** A planning type counts 0 exactly when no saved forecast has it. */
  lemma {:induction false} CountPlansZero(history: seq<ForecastData>, pt: PlanningType)
    ensures CountPlans(history, pt) == 0 <==>
      forall k :: 0 <= k < |history| ==> history[k].planningType != pt
  {
    if |history| > 0 {
      var front := history[..|history| - 1];
      CountPlansZero(front, pt);
      assert forall k :: 0 <= k < |front| ==> front[k] == history[k];
    }
  }

  /** generalPlans. */
  function GeneralPlans(history: seq<ForecastData>): (n: nat)
    ensures n <= TotalForecasts(history)
    ensures n == 0 <==> forall k :: 0 <= k < |history| ==> history[k].planningType != General
  {
    CountPlansZero(history, General);
    CountPlans(history, General)
  }

  /** zoningPlans. */
  function ZoningPlans(history: seq<ForecastData>): (n: nat)
    ensures n <= TotalForecasts(history)
    ensures n == 0 <==> forall k :: 0 <= k < |history| ==> history[k].planningType != Zoning
  {
    CountPlansZero(history, Zoning);
    CountPlans(history, Zoning)
  }

  /** Every saved forecast has exactly one of the four planning types, so the
      four counts add up to the number of forecasts. */
  lemma {:induction false} CountsPartitionHistory(history: seq<ForecastData>)
    ensures CountPlans(history, General) + CountPlans(history, Zoning)
          + CountPlans(history, Detailed) + CountPlans(history, Other) == |history|
  {
    if |history| > 0 {
      CountsPartitionHistory(history[..|history| - 1]);
    }
  }

  /** The two counts shown never exceed the number of forecasts. */
  lemma GeneralAndZoningBounded(history: seq<ForecastData>)
    ensures GeneralPlans(history) + ZoningPlans(history) <= TotalForecasts(history)
  {
    CountsPartitionHistory(history);
  }

  /** Saving one more snapshot adds one to its own planning type's count only. */
  lemma {:induction false} CountAfterSave(history: seq<ForecastData>, data: ForecastData, pt: PlanningType)
    ensures CountPlans(history + [data], pt)
         == CountPlans(history, pt) + (if data.planningType == pt then 1 else 0)
  {
    assert (history + [data])[..|history|] == history;
  }

  /** locations: the non-empty locations, in history order. */
  function Locations(history: seq<ForecastData>): (locs: seq<string>)
    ensures |locs| <= |history|
    ensures forall k :: 0 <= k < |locs| ==> locs[k] != ""
  {
    if |history| == 0 then []
    else (if history[0].location != "" then [history[0].location] else [])
         + Locations(history[1..])
  }

  /** A location is pinned exactly when some saved forecast has it and it is not empty. */
  lemma {:induction false} LocationsExactly(history: seq<ForecastData>, loc: string)
    ensures loc in Locations(history) <==>
      loc != "" && exists k :: 0 <= k < |history| && history[k].location == loc
  {
    if |history| > 0 {
      LocationsExactly(history[1..], loc);
      if exists k :: 0 <= k < |history| && history[k].location == loc {
        var k :| 0 <= k < |history| && history[k].location == loc;
        if k > 0 {
          assert history[1..][k - 1].location == loc;
        }
      }
      if exists k :: 0 <= k < |history| - 1 && history[1..][k].location == loc {
        var k :| 0 <= k < |history| - 1 && history[1..][k].location == loc;
        assert history[k + 1].location == loc;
      }
    }
  }

  /** The pins of the two halves of a history come one after the other. */
  lemma {:induction false} LocationsConcat(a: seq<ForecastData>, b: seq<ForecastData>)
    ensures Locations(a + b) == Locations(a) + Locations(b)
  {
    if |a| > 0 {
      assert (a + b)[0] == a[0];
      assert (a + b)[1..] == a[1..] + b;
      LocationsConcat(a[1..], b);
    } else {
      assert a + b == b;
    }
  }

  /** Pin offsets in percent: `20 + (idx * 15) % 60` from the top and
      `20 + (idx * 25) % 60` from the left. */
  function PinTop(idx: nat): (p: int)
    ensures 20 <= p < 80
  {
    20 + (idx * 15) % 60
  }

  function PinLeft(idx: nat): (p: int)
    ensures 20 <= p < 80
  {
    20 + (idx * 25) % 60
  }

  /** The vertical offsets repeat every 4 pins, the horizontal every 12. */
  lemma PinsRepeat(idx: nat)
    ensures PinTop(idx + 4) == PinTop(idx)
    ensures PinLeft(idx + 12) == PinLeft(idx)
  {
    assert (idx + 4) * 15 == idx * 15 + 60;
    assert (idx + 12) * 25 == idx * 25 + 5 * 60;
  }
}
