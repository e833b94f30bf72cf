// How long a message can keep travelling under one id.
module Flood {
  import opened Entity
  import opened Wire
  import opened MessageCache
  import opened Protocol
  import opened Letters
  import opened Network
  import opened Agreement
  import opened Runs
  import opened Quarantine

  predicate Carrying(g: Datagram, m: Id) {
    DecodeEnvelope(g.bytes).Ok? && DecodeEnvelope(g.bytes).value.id == m
  }

  function InFlight(air: seq<Datagram>, m: Id): nat {
    if air == [] then 0
    else InFlight(air[..|air| - 1], m) + if Carrying(air[|air| - 1], m) then 1 else 0
  }

  function Strangers(w: World, m: Id): set<Address> {
    set at | at in w.nodes && !Known(w.nodes[at].cache, m, w.nodes[at].now)
  }

  // Five letters for each client that has yet to see the message, and the datagrams under way.
  function Measure(w: World, m: Id): nat {
    DEFAULT_PEER_COUNT * |Strangers(w, m)| + InFlight(w.air, m)
  }

  predicate Delivers(w: World, a: Action, m: Id) {
    a.Deliver? && a.index < |w.air| && Carrying(w.air[a.index], m)
  }

  // The network does not repeat the message and no client forgets it.
  predicate Calm(w: World, a: Action, m: Id) {
    && (a.Duplicate? && a.index < |w.air| ==> !Carrying(w.air[a.index], m))
    && (a.Tick? && a.at in w.nodes ==>
          Known(w.nodes[a.at].cache, m, w.nodes[a.at].now) ==> Known(w.nodes[a.at].cache, m, a.time))
    && (a.Restart? && a.at in w.nodes ==> !Known(w.nodes[a.at].cache, m, w.nodes[a.at].now))
  }

  lemma {:induction false} InFlightAppend(a: seq<Datagram>, b: seq<Datagram>, m: Id)
    ensures InFlight(a + b, m) == InFlight(a, m) + InFlight(b, m)
  {
    if b == [] {
      assert a + b == a;
    } else {
      var k := |b| - 1;
      assert (a + b)[..|a + b| - 1] == a + b[..k];
      InFlightAppend(a, b[..k], m);
    }
  }

  lemma InFlightWithout(air: seq<Datagram>, i: nat, m: Id)
    requires i < |air|
    ensures InFlight(air, m) == InFlight(Without(air, i), m) + if Carrying(air[i], m) then 1 else 0
  {
    assert air == air[..i] + ([air[i]] + air[i + 1..]);
    InFlightAppend(air[..i], [air[i]] + air[i + 1..], m);
    InFlightAppend([air[i]], air[i + 1..], m);
    InFlightAppend(air[..i], air[i + 1..], m);
    assert InFlight([air[i]], m) == if Carrying(air[i], m) then 1 else 0 by {
      assert [air[i]][..0] == [];
    }
  }

  lemma {:induction false} InFlightBound(air: seq<Datagram>, m: Id)
    ensures InFlight(air, m) <= |air|
    ensures (forall g :: g in air ==> !Carrying(g, m)) ==> InFlight(air, m) == 0
  {
    if air != [] {
      InFlightBound(air[..|air| - 1], m);
    }
  }

  // A step that did not just dispatch the message sends nothing under its id, and one that did
  // sends at most five letters under it.
  lemma SentUnderId(w: World, step: Step, m: Id)
    requires Inv(w) && Enabled(w, step) && ByNode(step.action) && m in w.used
    ensures var sent := Datagrams(Actor(w, step.action), OutcomeOf(w, step).letters, step.oks);
            var received := Received(w, step.action);
            InFlight(sent, m) <= if received.Some? && received.value.id == m then DEFAULT_PEER_COUNT else 0
  {
    var at, o, received := Actor(w, step.action), OutcomeOf(w, step), Received(w, step.action);
    var sent := Datagrams(at, o.letters, step.oks);
    if step.action.Deliver? {
      assert DatagramOk(w, w.air[step.action.index]);
    }
    StepGood(w, step);
    DatagramsMean(at, o.letters, step.oks);
    InFlightBound(sent, m);
    if !(received.Some? && received.value.id == m && AllRelay(received.value, o.letters)) {
      forall g | g in sent
        ensures !Carrying(g, m)
      {
        var j :| 0 <= j < |o.letters| && DecodeEnvelope(g.bytes) == Ok(o.letters[j].message);
        if AllGenuine(Settled(o), step.choice.ids, o.letters) {
          assert Genuine(Settled(o), step.choice.ids, o.letters[j].message);
        }
      }
    }
  }

  // Only the acting client can change what it has seen, and what is unexpired stays seen.
  lemma StrangersShrink(w: World, step: Step, m: Id)
    requires Inv(w) && LogOk(w) && Enabled(w, step) && ByNode(step.action) && Calm(w, step.action, m)
    ensures Strangers(Do(w, step), m) <= Strangers(w, m)
  {
    var at := Actor(w, step.action);
    DoMeans(w, step);
    if Known(w.nodes[at].cache, m, w.nodes[at].now) {
      ActorRemembers(w, step, m);
    }
  }

  lemma ActorRemembers(w: World, step: Step, m: Id)
    requires Inv(w) && LogOk(w) && Enabled(w, step) && ByNode(step.action) && Calm(w, step.action, m)
    requires var n := w.nodes[Actor(w, step.action)]; Known(n.cache, m, n.now)
    ensures Known(After(w, step).cache, m, After(w, step).now)
  {
    var n := w.nodes[Actor(w, step.action)];
    AfterTends(w, step);
    if step.action.Tick? {
      TendedRemembers(n.cache, After(w, step).cache, m, n.now, step.action.time);
    } else {
      TendedKnown(n.cache, After(w, step).cache, m, n.now);
    }
  }

  lemma DispatcherIsNoStranger(w: World, step: Step, m: Id)
    requires Inv(w) && LogOk(w) && Enabled(w, step) && ByNode(step.action)
    requires Received(w, step.action).Some? && Received(w, step.action).value.id == m
    ensures Actor(w, step.action) in Strangers(w, m) && Actor(w, step.action) !in Strangers(Do(w, step), m)
  {
    var at := Actor(w, step.action);
    var e := Arrival(w, step.action)[0];
    assert DatagramOk(w, w.air[step.action.index]);
    StepMidCache(w, step);
    ArrivalIsNews(w, step, e);
    AfterTends(w, step);
    KnownEarlier(After(w, step).cache, m, e.time + TIME_TO_LIVE, After(w, step).now);
    DoMeans(w, step);
  }

  lemma AirCount(w: World, step: Step, m: Id)
    requires Enabled(w, step) && ByNode(step.action)
    ensures InFlight(Do(w, step).air, m) ==
            InFlight(w.air, m) - (if Delivers(w, step.action, m) then 1 else 0)
            + InFlight(Datagrams(Actor(w, step.action), OutcomeOf(w, step).letters, step.oks), m)
  {
    var sent := Datagrams(Actor(w, step.action), OutcomeOf(w, step).letters, step.oks);
    if step.action.Deliver? {
      InFlightWithout(w.air, step.action.index, m);
      InFlightAppend(Without(w.air, step.action.index), sent, m);
    } else {
      InFlightAppend(w.air, sent, m);
    }
  }

  lemma SmallerByOne(a: set<Address>, b: set<Address>, x: Address)
    requires a <= b && x in b && x !in a
    ensures |a| + 1 <= |b|
  {
    SubsetSize(a, b - {x});
  }

  // The datagrams that a step puts in flight under this id.
  ghost function SentNow(w: World, step: Step, m: Id): nat
    requires Enabled(w, step)
  {
    if ByNode(step.action)
    then InFlight(Datagrams(Actor(w, step.action), OutcomeOf(w, step).letters, step.oks), m) else 0
  }

  lemma SameStrangers(w: World, step: Step, m: Id)
    requires Enabled(w, step) && !ByNode(step.action) && Calm(w, step.action, m)
    ensures Strangers(Do(w, step), m) == Strangers(w, m)
  {
  }

  // What a step sends under the id is paid for by a client that sees the message for the first time.
  lemma StepTraffic(w: World, step: Step, m: Id)
    requires Inv(w) && LogOk(w) && Enabled(w, step) && m in w.used && Calm(w, step.action, m)
    ensures SentNow(w, step, m) + DEFAULT_PEER_COUNT * |Strangers(Do(w, step), m)| <=
            DEFAULT_PEER_COUNT * |Strangers(w, m)|
  {
    if ByNode(step.action) {
      var received := Received(w, step.action);
      SentUnderId(w, step, m);
      StrangersShrink(w, step, m);
      if received.Some? && received.value.id == m {
        DispatcherIsNoStranger(w, step, m);
        SmallerByOne(Strangers(Do(w, step), m), Strangers(w, m), Actor(w, step.action));
      } else {
        SubsetSize(Strangers(Do(w, step), m), Strangers(w, m));
      }
    } else {
      SameStrangers(w, step, m);
    }
  }

  // Every delivery brings the end closer, and nothing else pushes it away.
  lemma StepMeasure(w: World, step: Step, m: Id)
    requires Inv(w) && LogOk(w) && Enabled(w, step) && m in w.used && Calm(w, step.action, m)
    ensures Measure(Do(w, step), m) + (if Delivers(w, step.action, m) then 1 else 0) <= Measure(w, m)
  {
    if step.action.Drop? {
      InFlightWithout(w.air, step.action.index, m);
    } else if step.action.Duplicate? {
      InFlightAppend(w.air, [w.air[step.action.index]], m);
      InFlightBound([w.air[step.action.index]], m);
    } else if step.action.Restart? {
      SameStrangers(w, step, m);
    } else {
      NodeStepMeasure(w, step, m);
    }
  }

  lemma NodeStepMeasure(w: World, step: Step, m: Id)
    requires Inv(w) && LogOk(w) && Enabled(w, step) && ByNode(step.action)
    requires m in w.used && Calm(w, step.action, m)
    ensures Measure(Do(w, step), m) + (if Delivers(w, step.action, m) then 1 else 0) <= Measure(w, m)
  {
    AirCount(w, step, m);
    StepTraffic(w, step, m);
  }

  // ---- Over runs ----

  ghost predicate CalmRun(w: World, steps: seq<Step>, m: Id)
    requires Run(w, steps)
    decreases |steps|
  {
    steps == [] || (Calm(w, steps[0].action, m) && CalmRun(Do(w, steps[0]), steps[1..], m))
  }

  ghost function Deliveries(w: World, steps: seq<Step>, m: Id): nat
    requires Run(w, steps)
    decreases |steps|
  {
    if steps == [] then 0
    else (if Delivers(w, steps[0].action, m) then 1 else 0) + Deliveries(Do(w, steps[0]), steps[1..], m)
  }

  ghost function Traffic(w: World, steps: seq<Step>, m: Id): nat
    requires Run(w, steps)
    decreases |steps|
  {
    if steps == [] then 0 else SentNow(w, steps[0], m) + Traffic(Do(w, steps[0]), steps[1..], m)
  }

  lemma StrangersOnly(w: World, m: Id)
    ensures |Strangers(w, m)| <= |w.nodes.Keys|
  {
    SubsetSize(Strangers(w, m), w.nodes.Keys);
  }

  lemma UsedGrows(w: World, step: Step)
    requires Enabled(w, step)
    ensures w.used <= Do(w, step).used
  {
  }

  // However long the run: as long as nobody forgets the message and the network does not repeat
  // it, it is delivered at most as often as five times the clients plus what was in flight, and all
  // that is ever sent under its id is five datagrams for each client that had yet to see it.
  lemma {:induction false} FloodEnds(w: World, steps: seq<Step>, m: Id)
    requires Inv(w) && LogOk(w) && Run(w, steps) && Affordable(w, steps)
    requires m in w.used && CalmRun(w, steps, m)
    ensures Deliveries(w, steps, m) + Measure(End(w, steps), m) <= Measure(w, m)
    ensures Measure(w, m) <= 5 * |w.nodes.Keys| + InFlight(w.air, m)
    ensures Traffic(w, steps, m) + 5 * |Strangers(End(w, steps), m)| <= 5 * |Strangers(w, m)|
    decreases |steps|
  {
    StrangersOnly(w, m);
    if steps == [] {
    } else {
      StepMeasure(w, steps[0], m);
      StepTraffic(w, steps[0], m);
      StepAffordable(w, steps);
      StepLog(w, steps[0]);
      UsedGrows(w, steps[0]);
      FloodEnds(Do(w, steps[0]), steps[1..], m);
    }
  }
}
