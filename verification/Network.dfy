// Clients at addresses, joined by a network that may lose, duplicate and reorder datagrams. One
// step of the network is one handler run to its end, or one thing the network does by itself.
module Network {
  import opened Entity
  import opened Wire
  import opened PeerCache
  import opened MessageCache
  import opened Protocol
  import opened Letters

  datatype Event =
    | Dispatched(at: Address, message: Id, time: int)
    | Sent(at: Address, message: Id, time: int, peer: Id)

  // The clients, the datagrams in flight and the random ids handed out so far. `ledger` and `log`
  // are history: everything an owner's store ever held for its own devices, version by version,
  // and every dispatch and successful send since the client it happened at last started. Whether a
  // step can be taken, and what it does to the rest of the world, does not depend on them.
  datatype World = World(
    nodes: map<Address, Node>,
    air: seq<Datagram>,
    used: set<Id>,
    ledger: map<Id, seq<Device>>,
    log: seq<Event>)

  datatype Action =
    | Create(at: Address, kind: Byte, state: Byte)
    | Patch(at: Address, device: Id, state: Byte)
    | Hail(at: Address)
    | Farewell(at: Address)
    | Meet(at: Address, peer: Peer)
    | Tick(at: Address, time: int)
    | Restart(at: Address)
    | Deliver(index: nat)
    | Drop(index: nat)
    | Duplicate(index: nat)

  // `oks` tells which of the letters could be sent.
  datatype Step = Step(action: Action, choice: Choice, oks: seq<bool>)

  // The steps in which a client runs: a request, a received datagram, or time passing.
  predicate ByNode(a: Action) {
    !a.Drop? && !a.Duplicate? && !a.Restart?
  }

  predicate Placed(w: World, a: Action) {
    match a
    case Deliver(i) => i < |w.air| && w.air[i].to in w.nodes
    case Drop(i) => i < |w.air|
    case Duplicate(i) => i < |w.air|
    case Tick(at, time) => at in w.nodes && w.nodes[at].now <= time
    case _ => a.at in w.nodes
  }

  function Actor(w: World, a: Action): Address
    requires Placed(w, a) && ByNode(a)
    ensures Actor(w, a) in w.nodes
  {
    if a.Deliver? then w.air[a.index].to else a.at
  }

  function OutcomeOf(w: World, step: Step): Outcome
    requires Placed(w, step.action) && ByNode(step.action)
  {
    var n, c := w.nodes[Actor(w, step.action)], step.choice;
    match step.action
    case Create(_, kind, state) => CreateDevice(n, kind, state, c)
    case Patch(_, device, state) => PatchState(n, device, state, c)
    case Hail(_) => SendHail(n, c)
    case Farewell(_) => SendFarewell(n, c)
    case Meet(_, peer) => Quiet(AddPeer(n, peer))
    case Tick(_, time) => Quiet(n.(now := time))
    case Deliver(i) => Receive(n, w.air[i].from, w.air[i].bytes, c)
  }

  // Random ids never repeat and are never zero, which counts as used from the start.
  predicate FreshIds(w: World, ids: seq<Id>) {
    DistinctSeq(ids) && forall i :: 0 <= i < |ids| ==> ids[i] !in w.used
  }

  function IdSet(ids: seq<Id>): set<Id> {
    set i | i in ids
  }

  ghost predicate Enabled(w: World, step: Step) {
    && Placed(w, step.action)
    && (ByNode(step.action) ==>
          && FreshIds(w, step.choice.ids)
          && Allowed(OutcomeOf(w, step), step.choice)
          && |step.oks| == |OutcomeOf(w, step).letters|)
  }

  function Without(air: seq<Datagram>, i: nat): seq<Datagram>
    requires i < |air|
  {
    air[..i] + air[i + 1..]
  }

  predicate OwnWrite(before: Node, after: Node, device: Id) {
    && Owns(after, device)
    && (device in before.store ==> before.store[device] != after.store[device])
  }

  function History(ledger: map<Id, seq<Device>>, device: Id): seq<Device> {
    if device in ledger then ledger[device] else []
  }

  // Whenever a client's own device has changed in its store, the ledger gains the new contents.
  function Recorded(ledger: map<Id, seq<Device>>, before: Node, after: Node): map<Id, seq<Device>> {
    map device | device in ledger.Keys + (set d | d in after.store && OwnWrite(before, after, d)) ::
      if OwnWrite(before, after, device)
      then History(ledger, device) + [after.store[device]]
      else History(ledger, device)
  }

  function Sends(at: Address, now: int, letters: seq<Letter>, oks: seq<bool>): seq<Event>
    requires |letters| == |oks|
  {
    if letters == [] then []
    else
      var k := |letters| - 1;
      var before := Sends(at, now, letters[..k], oks[..k]);
      if oks[k] then before + [Sent(at, letters[k].message.id, now, letters[k].peer.id)] else before
  }

  predicate IsDispatch(w: World, a: Action)
    requires Placed(w, a)
  {
    a.Deliver? && Dispatches(w.nodes[w.air[a.index].to], w.air[a.index].bytes)
  }

  function Arrival(w: World, a: Action): seq<Event>
    requires Placed(w, a)
  {
    if IsDispatch(w, a) then
      [Dispatched(w.air[a.index].to, Id(w.air[a.index].bytes[..16]), w.nodes[w.air[a.index].to].now)]
    else []
  }

  function After(w: World, step: Step): Node
    requires Placed(w, step.action) && ByNode(step.action)
    requires |step.oks| == |OutcomeOf(w, step).letters|
  {
    Posted(Settled(OutcomeOf(w, step)), OutcomeOf(w, step).letters, step.oks)
  }

  function NewEvents(w: World, step: Step): seq<Event>
    requires Placed(w, step.action) && ByNode(step.action)
    requires |step.oks| == |OutcomeOf(w, step).letters|
  {
    var at := Actor(w, step.action);
    Arrival(w, step.action) + Sends(at, w.nodes[at].now, OutcomeOf(w, step).letters, step.oks)
  }

  function NodeStep(w: World, step: Step): World
    requires Placed(w, step.action) && ByNode(step.action)
    requires |step.oks| == |OutcomeOf(w, step).letters|
  {
    var at := Actor(w, step.action);
    var o := OutcomeOf(w, step);
    var air := if step.action.Deliver? then Without(w.air, step.action.index) else w.air;
    World(
      w.nodes[at := After(w, step)],
      air + Datagrams(at, o.letters, step.oks),
      w.used + IdSet(step.choice.ids),
      Recorded(w.ledger, w.nodes[at], After(w, step)),
      w.log + NewEvents(w, step))
  }

  function Elsewhere(log: seq<Event>, at: Address): seq<Event> {
    if log == [] then []
    else
      var k := |log| - 1;
      if log[k].at == at then Elsewhere(log[..k], at) else Elsewhere(log[..k], at) + [log[k]]
  }

  ghost function Do(w: World, step: Step): World
    requires Enabled(w, step)
  {
    if step.action.Restart? then
      var at := step.action.at;
      w.(nodes := w.nodes[at := Restarted(w.nodes[at])], log := Elsewhere(w.log, at))
    else if step.action.Drop? then w.(air := Without(w.air, step.action.index))
    else if step.action.Duplicate? then w.(air := w.air + [w.air[step.action.index]])
    else NodeStep(w, step)
  }

  ghost predicate Init(w: World) {
    && w.air == [] && w.ledger == map[] && w.log == []
    && ZERO_ID in w.used
    && DistinctHosts(w)
    && (forall at :: at in w.nodes ==>
          w.nodes[at].store == map[] && w.nodes[at].cache == map[] && OwnKeys(w.nodes[at].peers))
  }

  ghost predicate DistinctHosts(w: World) {
    forall a, b :: a in w.nodes && b in w.nodes && w.nodes[a].host == w.nodes[b].host ==> a == b
  }

  // ---- Runs ----

  ghost predicate Run(w: World, steps: seq<Step>)
    decreases |steps|
  {
    steps == [] || (Enabled(w, steps[0]) && Run(Do(w, steps[0]), steps[1..]))
  }

  ghost function End(w: World, steps: seq<Step>): World
    requires Run(w, steps)
    decreases |steps|
  {
    if steps == [] then w else End(Do(w, steps[0]), steps[1..])
  }

  // ---- What one step does to the pieces ----

  // Whatever is put in flight is the encoding of one of the letters.
  lemma {:induction false} DatagramsMean(from: Address, letters: seq<Letter>, oks: seq<bool>)
    requires |letters| == |oks|
    ensures |Datagrams(from, letters, oks)| <= |letters|
    ensures forall g :: g in Datagrams(from, letters, oks) ==>
              exists j :: 0 <= j < |letters| && DecodeEnvelope(g.bytes) == Ok(letters[j].message)
  {
    if letters != [] {
      var k := |letters| - 1;
      var before := Datagrams(from, letters[..k], oks[..k]);
      DatagramsMean(from, letters[..k], oks[..k]);
      EnvelopeDecodes(letters[k].message);
      forall g | g in Datagrams(from, letters, oks)
        ensures exists j :: 0 <= j < |letters| && DecodeEnvelope(g.bytes) == Ok(letters[j].message)
      {
        if g in before {
          var j :| 0 <= j < k && DecodeEnvelope(g.bytes) == Ok(letters[..k][j].message);
          assert letters[..k][j] == letters[j];
        } else {
          assert DecodeEnvelope(g.bytes) == Ok(letters[k].message);
        }
      }
    }
  }

  function Successes(oks: seq<bool>): nat {
    if oks == [] then 0 else Successes(oks[..|oks| - 1]) + if oks[|oks| - 1] then 1 else 0
  }

  // One datagram for each letter that could be sent, in order: from here, to the peer's address.
  lemma {:induction false} DatagramsExact(from: Address, letters: seq<Letter>, oks: seq<bool>)
    requires |letters| == |oks|
    ensures |Datagrams(from, letters, oks)| == Successes(oks)
    ensures forall j :: 0 <= j < |letters| && oks[j] ==>
              && Successes(oks[..j]) < Successes(oks)
              && Datagrams(from, letters, oks)[Successes(oks[..j])] ==
                 Datagram(from, letters[j].peer.address, EncodeEnvelope(letters[j].message))
  {
    if letters != [] {
      var k := |letters| - 1;
      DatagramsExact(from, letters[..k], oks[..k]);
      forall j | 0 <= j < k && oks[j]
        ensures Successes(oks[..j]) < Successes(oks)
        ensures Datagrams(from, letters, oks)[Successes(oks[..j])] ==
                Datagram(from, letters[j].peer.address, EncodeEnvelope(letters[j].message))
      {
        assert oks[..k][..j] == oks[..j] && letters[..k][j] == letters[j] && oks[..k][j];
      }
    }
  }

  lemma OneLetter(at: Address, s: Node, l: Letter, ok: bool)
    ensures Datagrams(at, [l], [ok]) == if ok then [Datagram(at, l.peer.address, EncodeEnvelope(l.message))] else []
    ensures Sends(at, s.now, [l], [ok]) == if ok then [Sent(at, l.message.id, s.now, l.peer.id)] else []
    ensures Posted(s, [l], [ok]) == if ok then Quarantined(s, l.message.id, l.peer.id) else s
  {
    assert [l][..0] == [] && [ok][..0] == [];
  }

  lemma AirMeans(w: World, step: Step)
    requires Enabled(w, step) && ByNode(step.action)
    ensures forall g :: g in Do(w, step).air ==>
              g in w.air || g in Datagrams(Actor(w, step.action), OutcomeOf(w, step).letters, step.oks)
  {
  }

  // What arrives is handled exactly once per stay in quarantine.
  lemma ReceiveMeans(n: Node, from: Address, bytes: Bytes, m: Message, c: Choice)
    requires DecodeEnvelope(bytes) == Ok(m)
    ensures Dispatches(n, bytes) <==> !Known(n.cache, m.id, n.now)
    ensures Receive(n, from, bytes, c) ==
            if Dispatches(n, bytes) then Dispatch(Quarantined(Swept(n), m.id, m.sender), from, m, c)
            else Quiet(Swept(n))
  {
  }

  function Received(w: World, a: Action): Option<Message>
    requires Placed(w, a)
  {
    if IsDispatch(w, a) then Some(DecodeEnvelope(w.air[a.index].bytes).value) else None
  }

  lemma StepGood(w: World, step: Step)
    requires Enabled(w, step) && ByNode(step.action)
    requires KeyedStore(w.nodes[Actor(w, step.action)].store)
    requires step.action.Deliver? ==> DecodeEnvelope(w.air[step.action.index].bytes).Ok?
    ensures GoodOutcome(OutcomeOf(w, step), step.choice.ids, Received(w, step.action))
  {
    var n, c := w.nodes[Actor(w, step.action)], step.choice;
    match step.action
    case Patch(_, device, state) => PatchStateGood(n, device, state, c);
    case Hail(_) => SendHailGood(n, c);
    case Deliver(i) =>
      var m := DecodeEnvelope(w.air[i].bytes).value;
      ReceiveMeans(n, w.air[i].from, w.air[i].bytes, m, c);
      if Dispatches(n, w.air[i].bytes) {
        DispatchGood(Quarantined(Swept(n), m.id, m.sender), w.air[i].from, m, c);
      }
    case _ =>
  }
}
