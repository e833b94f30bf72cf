// What the message caches guarantee over whole runs: no client handles a message twice, or sends
// it twice to the same peer, within one lifetime.
module Quarantine {
  import opened Entity
  import opened Wire
  import opened MessageCache
  import opened Protocol
  import opened Letters
  import opened Network
  import opened Agreement
  import opened Runs

  // ---- How a step treats a cache ----

  predicate Live(c: Entries, m: Id, p: Id, now: int) {
    m in c && p in c[m] && now <= c[m][p]
  }

  // Whatever has not expired stays, with its deadline.
  ghost predicate Tended(c: Entries, c': Entries, now: int) {
    forall m, p {:trigger Live(c, m, p, now)} :: Live(c, m, p, now) ==> Live(c', m, p, now) && c'[m][p] == c[m][p]
  }

  // Every pair held for this message has this deadline.
  ghost predicate Stamped(c: Entries, m: Id, deadline: int) {
    m in c ==> forall p :: p in c[m] ==> c[m][p] == deadline
  }

  lemma SweepTends(c: Entries, now: int)
    ensures Tended(c, Sweep(c, now), now)
  {
    forall m, p | Live(c, m, p, now)
      ensures Live(Sweep(c, now), m, p, now) && Sweep(c, now)[m][p] == c[m][p]
    {
      SweepMeans(c, m, p, now);
    }
  }

  lemma TendedTransitive(a: Entries, b: Entries, c: Entries, now: int)
    requires Tended(a, b, now) && Tended(b, c, now)
    ensures Tended(a, c, now)
  {
  }

  lemma KnownIsLive(c: Entries, m: Id, now: int)
    ensures Known(c, m, now) <==> exists p :: Live(c, m, p, now)
  {
    KnownMeans(c, m, now);
    if p :| m in c && p in c[m] && now <= c[m][p] {
      assert Live(c, m, p, now);
    }
  }

  lemma TendedKnown(c: Entries, c': Entries, m: Id, now: int)
    requires Tended(c, c', now) && Known(c, m, now)
    ensures Known(c', m, now)
  {
    KnownIsLive(c, m, now);
    KnownIsLive(c', m, now);
    var p :| Live(c, m, p, now);
    assert Live(c', m, p, now);
  }

  function Dispatching(n: Node, m: Message): Entries {
    Held(Sweep(n.cache, n.now), m.id, m.sender, n.now)
  }

  // Before anything is sent, a handler has left the cache alone or swept it. If it dispatched a
  // message, it has swept it and then put that message in.
  predicate CacheKept(n: Node, c: Entries, received: Option<Message>) {
    if received.Some? then c == Dispatching(n, received.value) || c == Sweep(Dispatching(n, received.value), n.now)
    else c == n.cache || c == Sweep(n.cache, n.now)
  }

  lemma DispatchCache(n: Node, from: Address, m: Message, c: Choice)
    ensures var o := Dispatch(n, from, m, c); o.node.cache == n.cache || o.node.cache == Sweep(n.cache, n.now)
  {
  }

  lemma OutcomeCache(w: World, step: Step)
    requires Enabled(w, step) && ByNode(step.action)
    requires step.action.Deliver? ==> DecodeEnvelope(w.air[step.action.index].bytes).Ok?
    ensures CacheKept(w.nodes[Actor(w, step.action)], OutcomeOf(w, step).node.cache, Received(w, step.action))
  {
    if step.action.Deliver? {
      var g := w.air[step.action.index];
      var n, m := w.nodes[g.to], DecodeEnvelope(g.bytes).value;
      ReceiveMeans(n, g.from, g.bytes, m, step.choice);
      if Dispatches(n, g.bytes) {
        DispatchCache(Quarantined(Swept(n), m.id, m.sender), g.from, m, step.choice);
      }
    }
  }

  lemma KeptTends(n: Node, c: Entries, received: Option<Message>)
    requires CacheKept(n, c, received)
    ensures Tended(n.cache, c, n.now)
  {
    SweepTends(n.cache, n.now);
    if received.Some? {
      var d := Dispatching(n, received.value);
      assert Tended(Sweep(n.cache, n.now), d, n.now);
      TendedTransitive(n.cache, Sweep(n.cache, n.now), d, n.now);
      SweepTends(d, n.now);
      TendedTransitive(n.cache, d, Sweep(d, n.now), n.now);
    }
  }

  // A dispatched message was not in the swept cache, so its entry is all new.
  lemma KeptDispatch(n: Node, c: Entries, m: Message)
    requires CacheKept(n, c, Some(m)) && !Known(n.cache, m.id, n.now)
    ensures Live(c, m.id, m.sender, n.now) && Stamped(c, m.id, n.now + TIME_TO_LIVE)
  {
    var d := Dispatching(n, m);
    assert d[m.id] == map[m.sender := n.now + TIME_TO_LIVE];
    SweepMeans(d, m.id, m.sender, n.now);
  }

  lemma {:induction false} PostedTends(n: Node, letters: seq<Letter>, oks: seq<bool>)
    requires |letters| == |oks|
    ensures Tended(n.cache, Posted(n, letters, oks).cache, n.now)
    ensures Posted(n, letters, oks).now == n.now
  {
    if letters != [] {
      var k := |letters| - 1;
      PostedTends(n, letters[..k], oks[..k]);
      TendedTransitive(n.cache, Posted(n, letters[..k], oks[..k]).cache, Posted(n, letters, oks).cache, n.now);
    }
  }

  lemma {:induction false} PostedStamps(n: Node, letters: seq<Letter>, oks: seq<bool>, m: Id)
    requires |letters| == |oks| && Stamped(n.cache, m, n.now + TIME_TO_LIVE)
    ensures Stamped(Posted(n, letters, oks).cache, m, n.now + TIME_TO_LIVE)
    ensures Posted(n, letters, oks).now == n.now
  {
    if letters != [] {
      PostedStamps(n, letters[..|letters| - 1], oks[..|letters| - 1], m);
    }
  }

  // ---- Sends ----

  predicate SentOne(e: Event, at: Address, now: int, letters: seq<Letter>, j: int) {
    0 <= j < |letters| && e == Sent(at, letters[j].message.id, now, letters[j].peer.id)
  }

  lemma {:induction false} SendsMean(at: Address, now: int, letters: seq<Letter>, oks: seq<bool>)
    requires |letters| == |oks|
    ensures forall e :: e in Sends(at, now, letters, oks) ==> exists j :: SentOne(e, at, now, letters, j)
  {
    if letters != [] {
      var k := |letters| - 1;
      var before := Sends(at, now, letters[..k], oks[..k]);
      SendsMean(at, now, letters[..k], oks[..k]);
      forall e | e in Sends(at, now, letters, oks)
        ensures exists j :: SentOne(e, at, now, letters, j)
      {
        if e in before {
          var j :| SentOne(e, at, now, letters[..k], j);
          assert SentOne(e, at, now, letters, j);
        } else {
          assert SentOne(e, at, now, letters, k);
        }
      }
    }
  }

  // Letters that could be sent are in the cache afterwards.
  lemma {:induction false} SendsHeld(at: Address, n: Node, letters: seq<Letter>, oks: seq<bool>)
    requires |letters| == |oks|
    requires forall j :: 0 <= j < |letters| ==> Stamped(n.cache, letters[j].message.id, n.now + TIME_TO_LIVE)
    ensures forall e :: e in Sends(at, n.now, letters, oks) ==>
              e.Sent? && Live(Posted(n, letters, oks).cache, e.message, e.peer, n.now + TIME_TO_LIVE)
    ensures Posted(n, letters, oks).now == n.now
  {
    if letters != [] {
      var k := |letters| - 1;
      var before, after := Posted(n, letters[..k], oks[..k]), Posted(n, letters, oks);
      SendsHeld(at, n, letters[..k], oks[..k]);
      PostedStamps(n, letters[..k], oks[..k], letters[k].message.id);
      forall e | e in Sends(at, n.now, letters[..k], oks[..k])
        ensures Live(after.cache, e.message, e.peer, n.now + TIME_TO_LIVE)
      {
        assert Live(before.cache, e.message, e.peer, n.now + TIME_TO_LIVE);
      }
    }
  }

  // ---- The log ----

  // Two events about one message at one client.
  predicate SameMatter(e: Event, f: Event) {
    e.at == f.at && e.message == f.message
  }

  // The same client handled the same message twice, or sent it twice to the same peer.
  predicate Repeats(e: Event, f: Event) {
    && SameMatter(e, f)
    && ((e.Dispatched? && f.Dispatched?) || (e.Sent? && f.Sent? && e.peer == f.peer))
  }

  // Either they are more than a lifetime apart, or they belong to one moment, at which nothing is
  // done twice.
  predicate Apart(e: Event, f: Event) {
    e.time + TIME_TO_LIVE < f.time || (e.time == f.time && !Repeats(e, f))
  }

  ghost predicate Spaced(log: seq<Event>) {
    forall i, j :: 0 <= i < j < |log| && SameMatter(log[i], log[j]) ==> Apart(log[i], log[j])
  }

  ghost predicate NoRepeats(log: seq<Event>) {
    forall i, j :: 0 <= i < j < |log| ==> !Repeats(log[i], log[j])
  }

  lemma {:induction false} SendsDistinct(at: Address, now: int, letters: seq<Letter>, oks: seq<bool>)
    requires |letters| == |oks| && DistinctLetters(letters)
    ensures NoRepeats(Sends(at, now, letters, oks))
  {
    if letters != [] {
      var k := |letters| - 1;
      var before, all := Sends(at, now, letters[..k], oks[..k]), Sends(at, now, letters, oks);
      SendsDistinct(at, now, letters[..k], oks[..k]);
      SendsMean(at, now, letters[..k], oks[..k]);
      forall i, j | 0 <= i < j < |all|
        ensures !Repeats(all[i], all[j])
      {
        if j < |before| {
          assert all[i] == before[i] && all[j] == before[j];
          assert !Repeats(before[i], before[j]);
        } else {
          assert oks[k] && all[j] == Sent(at, letters[k].message.id, now, letters[k].peer.id);
          assert all[i] == before[i] && before[i] in before;
          var h :| SentOne(before[i], at, now, letters[..k], h);
          assert letters[..k][h] == letters[h];
          assert letters[h].message.id != letters[k].message.id || letters[h].peer.id != letters[k].peer.id;
        }
      }
    }
  }

  // An event whose lifetime is not over is still in its client's cache.
  predicate Remembered(w: World, e: Event) {
    && e.at in w.nodes && e.message in w.used && e.time <= w.nodes[e.at].now
    && (w.nodes[e.at].now <= e.time + TIME_TO_LIVE ==> Known(w.nodes[e.at].cache, e.message, e.time + TIME_TO_LIVE))
  }

  ghost predicate CachesUsed(w: World) {
    && (forall at, m :: at in w.nodes && m in w.nodes[at].cache ==> m in w.used)
    && (forall at :: at in w.nodes ==> ZERO_ID !in w.nodes[at].cache)
  }

  ghost predicate LogOk(w: World) {
    && Spaced(w.log)
    && CachesUsed(w)
    && (forall e :: e in w.log ==> Remembered(w, e))
  }

  lemma InitLog(w: World)
    requires Init(w)
    ensures LogOk(w)
  {
  }

  // A step's letters carry the message just dispatched or one whose id has just been drawn.
  lemma LetterIds(w: World, step: Step)
    requires Inv(w) && Enabled(w, step) && ByNode(step.action)
    ensures var o, received := OutcomeOf(w, step), Received(w, step.action);
            && DistinctLetters(o.letters)
            && (forall j :: 0 <= j < |o.letters| ==>
                  || o.letters[j].message.id in IdSet(step.choice.ids)
                  || (received.Some? && o.letters[j].message.id == received.value.id))
  {
    var o, ids := OutcomeOf(w, step), step.choice.ids;
    if step.action.Deliver? {
      assert DatagramOk(w, w.air[step.action.index]);
    }
    StepGood(w, step);
    forall j | 0 <= j < |o.letters| && AllGenuine(Settled(o), ids, o.letters)
      ensures o.letters[j].message.id in IdSet(ids)
    {
      assert Genuine(Settled(o), ids, o.letters[j].message);
    }
  }

  // What is known of the cache between handling and sending.
  ghost predicate MidCache(w: World, n: Node, c: Entries, received: Option<Message>) {
    && Tended(n.cache, c, n.now)
    && (forall m :: m in c ==> m in w.used) && ZERO_ID !in c
    && (received.Some? ==>
          && received.value.id in w.used && !Known(n.cache, received.value.id, n.now)
          && Live(c, received.value.id, received.value.sender, n.now + TIME_TO_LIVE)
          && Stamped(c, received.value.id, n.now + TIME_TO_LIVE))
  }

  lemma StepMidCache(w: World, step: Step)
    requires Inv(w) && LogOk(w) && Enabled(w, step) && ByNode(step.action)
    ensures MidCache(w, w.nodes[Actor(w, step.action)], OutcomeOf(w, step).node.cache, Received(w, step.action))
  {
    var n, received, c := w.nodes[Actor(w, step.action)], Received(w, step.action), OutcomeOf(w, step).node.cache;
    if step.action.Deliver? {
      assert DatagramOk(w, w.air[step.action.index]);
    }
    OutcomeCache(w, step);
    KeptTends(n, c, received);
    if received.Some? {
      ReceiveMeans(n, w.air[step.action.index].from, w.air[step.action.index].bytes, received.value, step.choice);
      KeptDispatch(n, c, received.value);
    }
  }

  lemma {:induction false} PostedKeys(n: Node, letters: seq<Letter>, oks: seq<bool>)
    requires |letters| == |oks|
    ensures forall m :: m in Posted(n, letters, oks).cache ==>
              m in n.cache || exists j :: 0 <= j < |letters| && letters[j].message.id == m
  {
    if letters != [] {
      var k := |letters| - 1;
      PostedKeys(n, letters[..k], oks[..k]);
      forall m | m in Posted(n, letters, oks).cache && m !in n.cache && m != letters[k].message.id
        ensures exists j :: 0 <= j < |letters| && letters[j].message.id == m
      {
        var j :| 0 <= j < k && letters[..k][j].message.id == m;
        assert letters[j].message.id == m;
      }
    }
  }

  lemma CachesStayUsed(w: World, step: Step)
    requires Inv(w) && LogOk(w) && Enabled(w, step) && ByNode(step.action)
    ensures forall m :: m in After(w, step).cache ==> m in w.used + IdSet(step.choice.ids) && m != ZERO_ID
  {
    var o := OutcomeOf(w, step);
    StepMidCache(w, step);
    LetterIds(w, step);
    PostedKeys(Settled(o), o.letters, step.oks);
  }

  // The actor's cache after the step still has what had not expired.
  lemma AfterTends(w: World, step: Step)
    requires Inv(w) && LogOk(w) && Enabled(w, step) && ByNode(step.action)
    ensures var n := w.nodes[Actor(w, step.action)]; Tended(n.cache, After(w, step).cache, n.now)
    ensures var n := w.nodes[Actor(w, step.action)]; n.now <= After(w, step).now
    ensures !step.action.Tick? ==> After(w, step).now == w.nodes[Actor(w, step.action)].now
  {
    var n, o := w.nodes[Actor(w, step.action)], OutcomeOf(w, step);
    StepMidCache(w, step);
    AfterMeans(w, step);
    OutcomeSaves(w, step);
    if o.letters != [] {
      NowStays(w, step);
      PostedTends(Settled(o), o.letters, step.oks);
      TendedTransitive(n.cache, o.node.cache, After(w, step).cache, n.now);
    } else {
      NowStays(w, step);
    }
  }

  lemma NowStays(w: World, step: Step)
    requires Enabled(w, step) && ByNode(step.action)
    ensures OutcomeOf(w, step).letters != [] || !step.action.Tick? ==>
              OutcomeOf(w, step).node.now == w.nodes[Actor(w, step.action)].now
  {
    if step.action.Deliver? {
      var d := w.air[step.action.index];
      ReceiveNow(w.nodes[Actor(w, step.action)], d.from, d.bytes, step.choice);
    }
  }

  lemma ReceiveNow(n: Node, from: Address, bytes: Bytes, c: Choice)
    ensures Receive(n, from, bytes, c).node.now == n.now
  {
  }

  // ---- Preservation ----

  // A new event is about a message that was not in quarantine, or that did not exist.
  ghost predicate News(w: World, at: Address, after: Node, e: Event) {
    && e.at == at && at in w.nodes && e.time == w.nodes[at].now
    && (e.message in w.used ==> !Known(w.nodes[at].cache, e.message, e.time))
    && Known(after.cache, e.message, e.time + TIME_TO_LIVE)
  }

  // At the time of sending, a letter's message has no entry in the cache or one that is all new.
  lemma LettersStamped(w: World, step: Step)
    requires Inv(w) && LogOk(w) && Enabled(w, step) && ByNode(step.action)
    ensures var n, o := w.nodes[Actor(w, step.action)], OutcomeOf(w, step);
            forall j :: 0 <= j < |o.letters| ==>
              && Stamped(o.node.cache, o.letters[j].message.id, n.now + TIME_TO_LIVE)
              && o.letters[j].message.id in w.used + IdSet(step.choice.ids)
              && (o.letters[j].message.id in w.used ==> !Known(n.cache, o.letters[j].message.id, n.now))
  {
    StepMidCache(w, step);
    LetterIds(w, step);
  }

  lemma SendsAreNews(w: World, step: Step, e: Event)
    requires Inv(w) && LogOk(w) && Enabled(w, step) && ByNode(step.action)
    requires var at := Actor(w, step.action); e in Sends(at, w.nodes[at].now, OutcomeOf(w, step).letters, step.oks)
    ensures News(w, Actor(w, step.action), After(w, step), e)
    ensures e.Sent? && e.message in w.used + IdSet(step.choice.ids)
  {
    LettersStamped(w, step);
    NowStays(w, step);
    SentIsNews(w, Actor(w, step.action), Settled(OutcomeOf(w, step)), OutcomeOf(w, step).letters, step.oks, e);
  }

  lemma SentIsNews(w: World, at: Address, s: Node, letters: seq<Letter>, oks: seq<bool>, e: Event)
    requires |letters| == |oks| && at in w.nodes
    requires e in Sends(at, w.nodes[at].now, letters, oks)
    requires s.now == w.nodes[at].now || letters == []
    requires forall j :: 0 <= j < |letters| ==>
               && Stamped(s.cache, letters[j].message.id, w.nodes[at].now + TIME_TO_LIVE)
               && (letters[j].message.id in w.used ==>
                     !Known(w.nodes[at].cache, letters[j].message.id, w.nodes[at].now))
    ensures News(w, at, Posted(s, letters, oks), e)
    ensures e.Sent? && exists j :: 0 <= j < |letters| && letters[j].message.id == e.message
  {
    SendsMean(at, w.nodes[at].now, letters, oks);
    var j :| SentOne(e, at, w.nodes[at].now, letters, j);
    SentIsKnown(at, s, letters, oks, e);
  }

  lemma SentIsKnown(at: Address, s: Node, letters: seq<Letter>, oks: seq<bool>, e: Event)
    requires |letters| == |oks| && e in Sends(at, s.now, letters, oks)
    requires forall j :: 0 <= j < |letters| ==> Stamped(s.cache, letters[j].message.id, s.now + TIME_TO_LIVE)
    ensures Known(Posted(s, letters, oks).cache, e.message, s.now + TIME_TO_LIVE)
  {
    SendsHeld(at, s, letters, oks);
    KnownIsLive(Posted(s, letters, oks).cache, e.message, s.now + TIME_TO_LIVE);
  }

  lemma HeldSurvivesSending(s: Node, letters: seq<Letter>, oks: seq<bool>, m: Id, p: Id, t: int)
    requires |letters| == |oks| && Live(s.cache, m, p, t) && s.now <= t
    ensures Known(Posted(s, letters, oks).cache, m, t)
  {
    PostedTends(s, letters, oks);
    assert Live(s.cache, m, p, s.now);
    assert Live(Posted(s, letters, oks).cache, m, p, t);
    KnownIsLive(Posted(s, letters, oks).cache, m, t);
  }

  lemma ArrivalIsNews(w: World, step: Step, e: Event)
    requires Inv(w) && LogOk(w) && Enabled(w, step) && ByNode(step.action) && e in Arrival(w, step.action)
    ensures News(w, Actor(w, step.action), After(w, step), e)
    ensures e.Dispatched? && e.message in w.used
  {
    var o, m := OutcomeOf(w, step), Received(w, step.action).value;
    StepMidCache(w, step);
    NowStays(w, step);
    HeldSurvivesSending(Settled(o), o.letters, step.oks, m.id, m.sender, e.time + TIME_TO_LIVE);
  }

  lemma EventsAreNews(w: World, step: Step)
    requires Inv(w) && LogOk(w) && Enabled(w, step) && ByNode(step.action)
    ensures forall e :: e in NewEvents(w, step) ==>
              News(w, Actor(w, step.action), After(w, step), e) && e.message in w.used + IdSet(step.choice.ids)
    ensures NoRepeats(NewEvents(w, step))
  {
    var at, o := Actor(w, step.action), OutcomeOf(w, step);
    var sends := Sends(at, w.nodes[at].now, o.letters, step.oks);
    forall e | e in NewEvents(w, step)
      ensures News(w, at, After(w, step), e) && e.message in w.used + IdSet(step.choice.ids)
    {
      if e in sends {
        SendsAreNews(w, step, e);
      } else {
        ArrivalIsNews(w, step, e);
      }
    }
    LetterIds(w, step);
    SendsDistinct(at, w.nodes[at].now, o.letters, step.oks);
    forall e | e in sends
      ensures e.Sent?
    {
      SendsAreNews(w, step, e);
    }
    ArrivalFirst(Arrival(w, step.action), sends);
  }

  lemma ArrivalFirst(arrival: seq<Event>, sends: seq<Event>)
    requires |arrival| <= 1 && (forall e :: e in arrival ==> e.Dispatched?)
    requires NoRepeats(sends) && forall e :: e in sends ==> e.Sent?
    ensures NoRepeats(arrival + sends)
  {
    forall i, j | 0 <= i < j < |arrival + sends|
      ensures !Repeats((arrival + sends)[i], (arrival + sends)[j])
    {
      assert (arrival + sends)[j] in sends;
      if i >= |arrival| {
        assert !Repeats(sends[i - |arrival|], sends[j - |arrival|]);
      } else {
        assert (arrival + sends)[i] in arrival;
      }
    }
  }

  lemma KnownEarlier(c: Entries, m: Id, t: int, now: int)
    requires Known(c, m, t) && now <= t
    ensures Known(c, m, now)
  {
  }

  lemma NewsIsSpaced(w: World, at: Address, after: Node, e: Event, f: Event)
    requires Remembered(w, e) && News(w, at, after, f) && e.at == f.at && e.message == f.message
    ensures e.time + TIME_TO_LIVE < f.time
  {
  }

  lemma AppendSpaced(w: World, at: Address, after: Node, added: seq<Event>)
    requires LogOk(w) && NoRepeats(added)
    requires forall e :: e in added ==> News(w, at, after, e)
    ensures Spaced(w.log + added)
  {
    var all := w.log + added;
    forall i, j | 0 <= i < j < |all| && SameMatter(all[i], all[j])
      ensures Apart(all[i], all[j])
    {
      if j < |w.log| {
        assert SameMatter(w.log[i], w.log[j]);
      } else if i < |w.log| {
        assert all[i] in w.log && all[j] in added;
        NewsIsSpaced(w, at, after, all[i], all[j]);
      } else {
        assert all[i] in added && all[j] in added;
        assert !Repeats(added[i - |w.log|], added[j - |w.log|]);
      }
    }
  }

  lemma TendedRemembers(c: Entries, c': Entries, m: Id, now: int, t: int)
    requires Tended(c, c', now) && now <= t && Known(c, m, t)
    ensures Known(c', m, t)
  {
    KnownIsLive(c, m, t);
    var p :| Live(c, m, p, t);
    assert Live(c, m, p, now);
    assert Live(c', m, p, t);
    KnownIsLive(c', m, t);
  }

  lemma OldStaysRemembered(w: World, step: Step, e: Event)
    requires Inv(w) && LogOk(w) && Enabled(w, step) && ByNode(step.action) && e in w.log
    ensures Remembered(Do(w, step), e)
  {
    assert Remembered(w, e);
    DoMeans(w, step);
    if e.at == Actor(w, step.action) {
      AfterTends(w, step);
      var n := w.nodes[e.at];
      if n.now <= e.time + TIME_TO_LIVE {
        TendedRemembers(n.cache, After(w, step).cache, e.message, n.now, e.time + TIME_TO_LIVE);
      }
    }
  }

  lemma NewIsRemembered(w: World, step: Step, e: Event)
    requires Inv(w) && LogOk(w) && Enabled(w, step) && ByNode(step.action) && e in NewEvents(w, step)
    ensures Remembered(Do(w, step), e)
  {
    EventsAreNews(w, step);
    DoMeans(w, step);
    AfterTends(w, step);
  }

  lemma AllRemembered(w: World, step: Step)
    requires Inv(w) && LogOk(w) && Enabled(w, step) && ByNode(step.action)
    ensures forall e :: e in w.log + NewEvents(w, step) ==> Remembered(Do(w, step), e)
  {
    forall e | e in w.log + NewEvents(w, step)
      ensures Remembered(Do(w, step), e)
    {
      if e in w.log {
        OldStaysRemembered(w, step, e);
      } else {
        NewIsRemembered(w, step, e);
      }
    }
  }

  lemma LogMeans(w: World, step: Step)
    requires Enabled(w, step) && ByNode(step.action)
    ensures Do(w, step).log == w.log + NewEvents(w, step)
  {
  }

  lemma NodeStepLog(w: World, step: Step)
    requires Inv(w) && LogOk(w) && Enabled(w, step) && ByNode(step.action)
    ensures LogOk(Do(w, step))
  {
    DoMeans(w, step);
    LogMeans(w, step);
    EventsAreNews(w, step);
    AppendSpaced(w, Actor(w, step.action), After(w, step), NewEvents(w, step));
    CachesStayUsed(w, step);
    AllRemembered(w, step);
  }

  // ---- Restarts ----

  lemma {:induction false} ElsewhereMeans(log: seq<Event>, at: Address)
    ensures forall e :: e in Elsewhere(log, at) <==> e in log && e.at != at
  {
    if log != [] {
      var k := |log| - 1;
      ElsewhereMeans(log[..k], at);
      assert forall e :: e in log <==> e in log[..k] || e == log[k];
    }
  }

  lemma {:induction false} ElsewhereSpaced(log: seq<Event>, at: Address)
    requires Spaced(log)
    ensures Spaced(Elsewhere(log, at))
  {
    if log != [] {
      var k := |log| - 1;
      var before, all := Elsewhere(log[..k], at), Elsewhere(log, at);
      assert Spaced(log[..k]) by {
        assert forall i, j :: 0 <= i < j < k ==> (SameMatter(log[..k][i], log[..k][j]) <==> SameMatter(log[i], log[j]));
      }
      ElsewhereSpaced(log[..k], at);
      ElsewhereMeans(log[..k], at);
      forall i, j | 0 <= i < j < |all| && SameMatter(all[i], all[j])
        ensures Apart(all[i], all[j])
      {
        if j < |before| {
          assert SameMatter(before[i], before[j]);
        } else {
          assert before[i] in before;
          var h :| 0 <= h < k && log[..k][h] == before[i];
          assert SameMatter(log[h], log[k]);
        }
      }
    }
  }

  // A client that restarts has forgotten everything, and so has its part of the log.
  lemma RestartLog(w: World, step: Step)
    requires LogOk(w) && Enabled(w, step) && step.action.Restart?
    ensures LogOk(Do(w, step))
  {
    var at := step.action.at;
    ElsewhereSpaced(w.log, at);
    ElsewhereMeans(w.log, at);
    forall e | e in Elsewhere(w.log, at)
      ensures Remembered(Do(w, step), e)
    {
      assert Remembered(w, e);
    }
  }

  lemma StepLog(w: World, step: Step)
    requires Inv(w) && LogOk(w) && Enabled(w, step)
    ensures LogOk(Do(w, step))
  {
    if ByNode(step.action) {
      NodeStepLog(w, step);
    } else if step.action.Restart? {
      RestartLog(w, step);
    } else {
      forall e | e in w.log
        ensures Remembered(Do(w, step), e)
      {
        assert Remembered(w, e);
      }
    }
  }

  lemma {:induction false} RunLog(w: World, steps: seq<Step>)
    requires Inv(w) && LogOk(w) && Run(w, steps) && Affordable(w, steps)
    ensures LogOk(End(w, steps))
    decreases |steps|
  {
    if steps == [] {
    } else {
      StepLog(w, steps[0]);
      StepAffordable(w, steps);
      RunLog(Do(w, steps[0]), steps[1..]);
    }
  }

  // ---- Theorems ----

  lemma ScratchLog(w: World, steps: seq<Step>)
    requires FromScratch(w, steps)
    ensures LogOk(End(w, steps))
  {
    ScratchAffordable(w, steps);
    InitLog(w);
    RunLog(w, steps);
  }

  // Whatever a client does with one message, dispatching it or sending it to any peers, happens at
  // one moment or more than a lifetime apart, as long as the client does not restart in between. At
  // one moment it dispatches the message once and sends it to each peer id once.
  lemma QuarantineSpacing(w: World, steps: seq<Step>, i: nat, j: nat)
    requires FromScratch(w, steps) && i < j < |End(w, steps).log|
    requires var e, f := End(w, steps).log[i], End(w, steps).log[j]; e.at == f.at && e.message == f.message
    ensures var e, f := End(w, steps).log[i], End(w, steps).log[j];
            e.time + 10_000_000_000 < f.time || (e.time == f.time && !Repeats(e, f))
  {
    ScratchLog(w, steps);
    assert SameMatter(End(w, steps).log[i], End(w, steps).log[j]);
  }

  // All that a client does with one message within a lifetime belongs to one step: what a further
  // step does with it is more than a lifetime later than everything before.
  lemma OneStepPerLifetime(w: World, steps: seq<Step>, step: Step, e: Event, f: Event)
    requires FromScratch(w, steps) && Enabled(End(w, steps), step) && ByNode(step.action)
    requires e in End(w, steps).log && f in NewEvents(End(w, steps), step)
    requires e.at == f.at && e.message == f.message
    ensures e.time + 10_000_000_000 < f.time
  {
    var v := End(w, steps);
    HistoryInv(w, steps);
    ScratchLog(w, steps);
    EventsAreNews(v, step);
    NewsIsSpaced(v, Actor(v, step.action), After(v, step), e, f);
  }

  // Events stay in the log until their client restarts.
  lemma {:induction false} EventStays(w: World, steps: seq<Step>, e: Event)
    requires Run(w, steps) && e in w.log && forall s :: s in steps ==> s.action != Restart(e.at)
    ensures e in End(w, steps).log
    decreases |steps|
  {
    if steps == [] {
    } else {
      var s := steps[0];
      if ByNode(s.action) {
        LogMeans(w, s);
      } else if s.action.Restart? {
        ElsewhereMeans(w.log, s.action.at);
      }
      EventStays(Do(w, s), steps[1..], e);
    }
  }

  lemma ArrivalLogged(v: World, s: Step)
    requires Enabled(v, s) && IsDispatch(v, s.action)
    ensures Arrival(v, s.action)[0] in Do(v, s).log
  {
    LogMeans(v, s);
    assert NewEvents(v, s)[0] == Arrival(v, s.action)[0];
  }

  // Two steps of one run in which the same client acts on the same message, for instance applies
  // the same patch, are more than a lifetime apart on that client's clock, unless it restarts in
  // between.
  lemma DispatchesApart(w: World, a: seq<Step>, s: Step, b: seq<Step>, s': Step)
    requires Run(w, a) && Enabled(End(w, a), s) && Run(Do(End(w, a), s), b)
    requires FromScratch(w, a + [s] + b) && Enabled(End(Do(End(w, a), s), b), s')
    requires var v, v' := End(w, a), End(Do(End(w, a), s), b);
             && IsDispatch(v, s.action) && IsDispatch(v', s'.action)
             && SameMatter(Arrival(v, s.action)[0], Arrival(v', s'.action)[0])
             && forall t :: t in b ==> t.action != Restart(Arrival(v, s.action)[0].at)
    ensures var v, v' := End(w, a), End(Do(End(w, a), s), b);
            Arrival(v, s.action)[0].time + 10_000_000_000 < Arrival(v', s'.action)[0].time
  {
    var v := End(w, a);
    var v' := End(Do(v, s), b);
    RunFrom(v, s, b);
    RunJoins(w, a, [s] + b);
    assert a + ([s] + b) == a + [s] + b;
    HistoryInv(w, a + [s] + b);
    ScratchLog(w, a + [s] + b);
    ArrivalLogged(v, s);
    EventStays(Do(v, s), b, Arrival(v, s.action)[0]);
    ArrivalIsNews(v', s', Arrival(v', s'.action)[0]);
    NewsIsSpaced(v', Actor(v', s'.action), After(v', s'), Arrival(v, s.action)[0], Arrival(v', s'.action)[0]);
  }
}
