/** The alert section of the dashboard: three independent rules evaluated
    in order on every page run.

    1. a bore (low-flow) warning when the flow rate is below its threshold;
    2. one critical alarm per tank whose level is below 25%, in tank order;
    3. a leak alarm when the latest daily consumption exceeds 1.5 times the
       mean of the whole series, the latest value included.

    Consumption values are integers, so rule 3 is decided exactly as
    2 * n * latest > 3 * total; `SpikeMeansAboveMean` shows that this is the
    comparison with the mean.  Rule 3 reads the latest value with
    `.iloc[-1]`, which raises IndexError on an empty series after the alerts
    of rules 1 and 2 have been shown. */
module Alerts {
  import opened Failures
  import opened Tanks
  import Consumption

  /** A tank below this level raises a critical alarm. */
  const CriticalLevel: real := 0.25

  /** `LowLevel` carries the tank's position in the tank list and its name. */
  datatype Alert = LowFlow | LowLevel(tank: nat, name: string) | ConsumptionSpike

  /** The alerts shown, in order, and the fault that ended the section, if any. */
  datatype Report = Report(alerts: seq<Alert>, fault: Option<Fault>)

  function Sum(s: seq<int>): int
  {
    if s == [] then 0 else Sum(s[..|s| - 1]) + s[|s| - 1]
  }

  /** The consumption column of the daily samples the trends aggregate. */
  function Volumes(samples: seq<Consumption.Sample>): (r: seq<int>)
    ensures |r| == |samples|
    ensures forall i :: 0 <= i < |samples| ==> r[i] == samples[i].volume
  {
    if samples == [] then [] else Volumes(samples[..|samples| - 1]) + [samples[|samples| - 1].volume]
  }

  /** The total the leak rule compares against is the total volume the
      trends conserve. */
  lemma {:induction false} SumOfVolumes(samples: seq<Consumption.Sample>)
    ensures Sum(Volumes(samples)) == Consumption.Volume(samples)
  {
    if samples != [] {
      var init := samples[..|samples| - 1];
      SumOfVolumes(init);
      assert Volumes(samples)[..|samples| - 1] == Volumes(init);
    }
  }

  /** The arithmetic mean, as the series' `mean()` computes it. */
  function Mean(s: seq<int>): (m: real)
    requires s != []
    ensures m * |s| as real == Sum(s) as real
  {
    Sum(s) as real / |s| as real
  }

  /** Rule 3 on a consumption series. */
  function Spike(consumption: seq<int>): (r: Result<bool>)
    ensures r.Error? <==> consumption == []
    ensures r.Error? ==> r.fault == IndexOutOfRange
  {
    if consumption == [] then Error(IndexOutOfRange)
    else
      var n, latest := |consumption|, consumption[|consumption| - 1];
      Ok(2 * n * latest > 3 * Sum(consumption))
  }

  /** The integer comparison of `Spike` is the comparison of the latest
      value with 1.5 times the mean. */
  lemma SpikeMeansAboveMean(consumption: seq<int>)
    requires consumption != []
    ensures Spike(consumption) == Ok(consumption[|consumption| - 1] as real > Mean(consumption) * 1.5)
  {
    var n := |consumption| as real;
    var latest := consumption[|consumption| - 1] as real;
    var total := Sum(consumption) as real;
    assert Mean(consumption) * 1.5 * n == 1.5 * total;
    assert (2 * |consumption| * consumption[|consumption| - 1]) as real == 2.0 * n * latest;
    assert latest > Mean(consumption) * 1.5 <==> latest * n > Mean(consumption) * 1.5 * n;
  }

  /** A single non-negative sample never counts as a spike: it is its own mean. */
  lemma SingleSampleNoSpike(x: int)
    requires x >= 0
    ensures Spike([x]) == Ok(false)
  {
    assert [x][..0] == [];
    assert Sum([x]) == x;
  }

  /** Rule 2: the critical alarms raised by the tank list, in tank order. */
  function LevelAlerts(tanks: seq<Tank>): seq<Alert>
  {
    if tanks == [] then []
    else
      var last := |tanks| - 1;
      LevelAlerts(tanks[..last])
      + if tanks[last].level < CriticalLevel then [LowLevel(last, tanks[last].name)] else []
  }

  /** Every critical alarm names a tank of the list, by position and name,
      whose level is below the critical level. */
  lemma {:induction false} LevelAlertsSound(tanks: seq<Tank>)
    ensures forall a :: a in LevelAlerts(tanks) ==>
              a.LowLevel? && a.tank < |tanks| && tanks[a.tank].level < CriticalLevel && a.name == tanks[a.tank].name
  {
    if tanks != [] {
      var init := tanks[..|tanks| - 1];
      LevelAlertsSound(init);
      forall a | a in LevelAlerts(init)
        ensures a.LowLevel? && a.tank < |tanks| && tanks[a.tank] == init[a.tank]
      {
      }
    }
  }

  /** Every tank below the critical level raises its alarm. */
  lemma {:induction false} LevelAlertsComplete(tanks: seq<Tank>)
    ensures forall i :: 0 <= i < |tanks| && tanks[i].level < CriticalLevel ==>
              LowLevel(i, tanks[i].name) in LevelAlerts(tanks)
  {
    if tanks != [] {
      var init := tanks[..|tanks| - 1];
      LevelAlertsComplete(init);
      forall i | 0 <= i < |init|
        ensures tanks[i] == init[i]
      {
      }
    }
  }

  /** Critical alarms listed by strictly increasing tank position. */
  predicate InTankOrder(alerts: seq<Alert>)
  {
    forall j, k :: 0 <= j < k < |alerts| ==> alerts[j].LowLevel? && alerts[k].LowLevel? && alerts[j].tank < alerts[k].tank
  }

  /** The alarms come in tank order, so no tank raises two. */
  lemma {:induction false} LevelAlertsOrdered(tanks: seq<Tank>)
    ensures InTankOrder(LevelAlerts(tanks))
  {
    if tanks != [] {
      var init := tanks[..|tanks| - 1];
      LevelAlertsOrdered(init);
      LevelAlertsSound(init);
      var r0, r := LevelAlerts(init), LevelAlerts(tanks);
      forall j, k | 0 <= j < k < |r|
        ensures r[j].LowLevel? && r[k].LowLevel? && r[j].tank < r[k].tank
      {
        assert r[j] == r0[j];
        if k >= |r0| {
          assert r0[j] in r0;
          assert r0[j].tank < |init|;
          assert r[k] == LowLevel(|init|, tanks[|init|].name);
        } else {
          assert r[k] == r0[k];
        }
      }
    }
  }

  /** Rule 1: the bore warning. */
  function FlowAlerts(flowRate: real, flowThreshold: real): (r: seq<Alert>)
    ensures forall a :: a in r ==> a == LowFlow
    ensures |r| <= 1 && (LowFlow in r <==> flowRate < flowThreshold)
  {
    if flowRate < flowThreshold then [LowFlow] else []
  }

  /** Rule 3 as shown: the leak alarm, or nothing. */
  function SpikeAlerts(spike: bool): (r: seq<Alert>)
    ensures forall a :: a in r ==> a == ConsumptionSpike
    ensures |r| <= 1 && (ConsumptionSpike in r <==> spike)
  {
    if spike then [ConsumptionSpike] else []
  }

  /** The whole alert section. */
  function Evaluate(flowRate: real, flowThreshold: real, tanks: seq<Tank>, consumption: seq<int>): (r: Report)
    ensures LowFlow in r.alerts <==> flowRate < flowThreshold
    ensures forall i: nat, name :: LowLevel(i, name) in r.alerts <==>
              i < |tanks| && tanks[i].level < CriticalLevel && name == tanks[i].name
    ensures ConsumptionSpike in r.alerts <==> Spike(consumption) == Ok(true)
    ensures r.fault == (if consumption == [] then Some(IndexOutOfRange) else None)
  {
    LevelAlertsSound(tanks);
    LevelAlertsComplete(tanks);
    var shown := FlowAlerts(flowRate, flowThreshold) + LevelAlerts(tanks);
    match Spike(consumption)
    case Error(f) => Report(shown, Some(f))
    case Ok(spike) => Report(shown + SpikeAlerts(spike), None)
  }

  /** The rules are shown in their order: nothing precedes a bore warning
      and nothing follows a leak alarm. */
  lemma AlertOrder(flowRate: real, flowThreshold: real, tanks: seq<Tank>, consumption: seq<int>)
    ensures var r := Evaluate(flowRate, flowThreshold, tanks, consumption);
            r.alerts != [] ==> LowFlow !in r.alerts[1..]
    ensures var r := Evaluate(flowRate, flowThreshold, tanks, consumption);
            r.alerts != [] ==> ConsumptionSpike !in r.alerts[..|r.alerts| - 1]
  {
    var flow, levels := FlowAlerts(flowRate, flowThreshold), LevelAlerts(tanks);
    var spike := if Spike(consumption) == Ok(true) then SpikeAlerts(true) else [];
    LevelAlertsSound(tanks);
    assert Evaluate(flowRate, flowThreshold, tanks, consumption).alerts == flow + levels + spike;
    OrderOfParts(flow, levels, spike);
  }

  lemma OrderOfParts(flow: seq<Alert>, levels: seq<Alert>, spike: seq<Alert>)
    requires |flow| <= 1 && forall a :: a in flow ==> a == LowFlow
    requires forall a :: a in levels ==> a.LowLevel?
    requires |spike| <= 1 && forall a :: a in spike ==> a == ConsumptionSpike
    ensures var alerts := flow + levels + spike;
            alerts != [] ==> LowFlow !in alerts[1..] && ConsumptionSpike !in alerts[..|alerts| - 1]
  {
    var alerts := flow + levels + spike;
    assert ConsumptionSpike !in flow && ConsumptionSpike !in levels;
    assert LowFlow !in levels && LowFlow !in spike;
    if alerts != [] {
      if flow == [] {
        assert alerts == levels + spike;
        assert forall x :: x in alerts[1..] ==> x in alerts;
      } else {
        assert alerts[1..] == levels + spike;
      }
      if spike == [] {
        assert alerts == flow + levels;
        assert forall x :: x in alerts[..|alerts| - 1] ==> x in alerts;
      } else {
        assert alerts[..|alerts| - 1] == flow + levels;
      }
    }
  }

  /** The critical alarms of an alert list, in their order. */
  function CriticalAlarms(alerts: seq<Alert>): (r: seq<Alert>)
  {
    if alerts == [] then []
    else CriticalAlarms(alerts[..|alerts| - 1]) + if alerts[|alerts| - 1].LowLevel? then [alerts[|alerts| - 1]] else []
  }

  lemma {:induction false} CriticalAlarmsAppend(a: seq<Alert>, b: seq<Alert>)
    ensures CriticalAlarms(a + b) == CriticalAlarms(a) + CriticalAlarms(b)
    decreases |b|
  {
    if b == [] {
      assert a + b == a;
    } else {
      var b0 := b[..|b| - 1];
      assert (a + b)[..|a + b| - 1] == a + b0;
      CriticalAlarmsAppend(a, b0);
    }
  }

  lemma {:induction false} CriticalAlarmsOfLevels(tanks: seq<Tank>)
    ensures CriticalAlarms(LevelAlerts(tanks)) == LevelAlerts(tanks)
  {
    if tanks != [] {
      var init := tanks[..|tanks| - 1];
      var last := |tanks| - 1;
      var extra := if tanks[last].level < CriticalLevel then [LowLevel(last, tanks[last].name)] else [];
      CriticalAlarmsOfLevels(init);
      CriticalAlarmsAppend(LevelAlerts(init), extra);
      assert CriticalAlarms(extra) == extra by {
        assert extra == [] || extra[..0] == [];
      }
    }
  }

  /** The critical alarms the section shows are exactly those of rule 2, one
      per low tank, in tank order. */
  lemma ShownCriticalAlarms(flowRate: real, flowThreshold: real, tanks: seq<Tank>, consumption: seq<int>)
    ensures CriticalAlarms(Evaluate(flowRate, flowThreshold, tanks, consumption).alerts) == LevelAlerts(tanks)
    ensures InTankOrder(CriticalAlarms(Evaluate(flowRate, flowThreshold, tanks, consumption).alerts))
  {
    var flow, levels := FlowAlerts(flowRate, flowThreshold), LevelAlerts(tanks);
    var spike := if Spike(consumption) == Ok(true) then SpikeAlerts(true) else [];
    assert Evaluate(flowRate, flowThreshold, tanks, consumption).alerts == flow + levels + spike;
    CriticalOfParts(flow, levels, spike);
    CriticalAlarmsOfLevels(tanks);
    LevelAlertsOrdered(tanks);
  }

  lemma CriticalOfParts(flow: seq<Alert>, levels: seq<Alert>, spike: seq<Alert>)
    requires |flow| <= 1 && forall a :: a in flow ==> a == LowFlow
    requires |spike| <= 1 && forall a :: a in spike ==> a == ConsumptionSpike
    ensures CriticalAlarms(flow + levels + spike) == CriticalAlarms(levels)
  {
    CriticalAlarmsAppend(flow + levels, spike);
    CriticalAlarmsAppend(flow, levels);
    if flow != [] {
      assert flow[0] in flow && flow[..|flow| - 1] == [];
    }
    if spike != [] {
      assert spike[0] in spike && spike[..|spike| - 1] == [];
    }
  }

  /** The alert section as the script runs it: one check after the other
      and a loop over the tanks that shows an alarm per low tank. */
  method EvaluateAlerts(flowRate: real, flowThreshold: real, tanks: seq<Tank>, consumption: seq<int>)
    returns (r: Report)
    ensures r == Evaluate(flowRate, flowThreshold, tanks, consumption)
  {
    var shown: seq<Alert> := [];
    if flowRate < flowThreshold {
      shown := shown + [LowFlow];
    }
    assert shown == FlowAlerts(flowRate, flowThreshold);
    var i := 0;
    while i < |tanks|
      invariant 0 <= i <= |tanks|
      invariant shown == FlowAlerts(flowRate, flowThreshold) + LevelAlerts(tanks[..i])
    {
      LevelAlertsStep(tanks, i);
      if tanks[i].level < CriticalLevel {
        shown := shown + [LowLevel(i, tanks[i].name)];
      }
      i := i + 1;
    }
    assert tanks[..i] == tanks;
    if |consumption| == 0 {
      return Report(shown, Some(IndexOutOfRange));
    }
    var latest := consumption[|consumption| - 1];
    var spike := 2 * |consumption| * latest > 3 * Sum(consumption);
    if spike {
      shown := shown + [ConsumptionSpike];
    }
    assert Spike(consumption) == Ok(spike);
    r := Report(shown, None);
  }

  /** One more tank adds its alarm, if any, at the end. */
  lemma LevelAlertsStep(tanks: seq<Tank>, i: nat)
    requires i < |tanks|
    ensures LevelAlerts(tanks[..i + 1]) == LevelAlerts(tanks[..i])
              + if tanks[i].level < CriticalLevel then [LowLevel(i, tanks[i].name)] else []
  {
    assert tanks[..i + 1][..i] == tanks[..i];
  }

  /** The configured dashboard (flow 0.8 against a threshold of 0.5, the
      three configured tanks) shows no bore warning and exactly one critical
      alarm, for "Linked Tank" at 22%; whether the leak alarm follows depends
      on the generated consumption series. */
  lemma ConfiguredAlerts(consumption: seq<int>)
    requires consumption != []
    ensures var r := Evaluate(0.8, 0.5, SampleTanks(), consumption);
            r.alerts == [LowLevel(1, "Linked Tank")] + (if Spike(consumption) == Ok(true) then [ConsumptionSpike] else [])
  {
    var t := SampleTanks();
    assert t[..2][..1] == t[..1] && t[..1][..0] == [];
    assert LevelAlerts(t[..1]) == [];
    assert LevelAlerts(t[..2]) == [LowLevel(1, "Linked Tank")];
    assert t[..3] == t;
  }
}
