// The time-limited memory of seen messages (main/data/messagecache.go).
module MessageCache {
  import opened Entity

  const TIME_TO_LIVE: int := 10_000_000_000 // nanoseconds

  type Receivers = map<Id, int>
  type Entries = map<Id, Receivers>

  // The pairs whose deadline is not before now.
  function Unexpired(r: Receivers, now: int): Receivers {
    map p | p in r && now <= r[p] :: r[p]
  }

  function Sweep(c: Entries, now: int): Entries {
    map m | m in c && Unexpired(c[m], now) != map[] :: Unexpired(c[m], now)
  }

  // An existing pair keeps its deadline, even a stale one.
  function Held(c: Entries, m: Id, p: Id, now: int): Entries {
    if m !in c then c[m := map[p := now + TIME_TO_LIVE]]
    else if p !in c[m] then c[m := c[m][p := now + TIME_TO_LIVE]]
    else c
  }

  predicate Known(c: Entries, m: Id, now: int) {
    m in Sweep(c, now)
  }

  predicate KnownFor(c: Entries, m: Id, p: Id, now: int) {
    m in c && p in c[m] && now < c[m][p]
  }

  predicate NoEmptyEntry(c: Entries) {
    forall m :: m in c ==> c[m] != map[]
  }

  lemma KnownMeans(c: Entries, m: Id, now: int)
    ensures Known(c, m, now) <==> m in c && exists p :: p in c[m] && now <= c[m][p]
  {
    if m in c {
      if p :| p in c[m] && now <= c[m][p] {
        assert p in Unexpired(c[m], now);
      }
      if Known(c, m, now) {
        var p :| p in Unexpired(c[m], now);
        assert p in c[m] && now <= c[m][p];
      }
    }
  }

  lemma SweepMeans(c: Entries, m: Id, p: Id, now: int)
    ensures m in Sweep(c, now) && p in Sweep(c, now)[m] <==> m in c && p in c[m] && now <= c[m][p]
    ensures m in Sweep(c, now) && p in Sweep(c, now)[m] ==> Sweep(c, now)[m][p] == c[m][p]
  {
    if m in c && p in c[m] && now <= c[m][p] {
      assert p in Unexpired(c[m], now);
    }
  }

  lemma UnexpiredTwice(r: Receivers, swept: int, now: int)
    requires swept <= now
    ensures Unexpired(Unexpired(r, swept), now) == Unexpired(r, now)
  {
  }

  lemma SweepTwice(c: Entries, swept: int, now: int)
    requires swept <= now
    ensures Sweep(Sweep(c, swept), now) == Sweep(c, now)
  {
    var twice, once := Sweep(Sweep(c, swept), now), Sweep(c, now);
    forall m
      ensures m in twice <==> m in once
      ensures m in once && m in twice ==> twice[m] == once[m]
    {
      if m in c {
        UnexpiredTwice(c[m], swept, now);
        if m !in Sweep(c, swept) {
          assert Unexpired(map[], now) == map[];
        }
      }
    }
  }

  // Sweeping at any earlier moment changes no later answer and leaves no empty entry.
  lemma SweepInvisible(c: Entries, m: Id, p: Id, swept: int, now: int)
    requires swept <= now
    ensures Known(Sweep(c, swept), m, now) == Known(c, m, now)
    ensures KnownFor(Sweep(c, swept), m, p, now) == KnownFor(c, m, p, now)
    ensures NoEmptyEntry(Sweep(c, swept))
  {
    SweepTwice(c, swept, now);
    SweepMeans(c, m, p, swept);
  }

  // Hold is meant to make the pair known for a whole lifetime. It does so unless a stale pair is
  // still lying there unswept, and only then does it fail to.
  lemma HoldTakesEffect(c: Entries, m: Id, p: Id, now: int)
    ensures KnownFor(Held(c, m, p, now), m, p, now) <==> !(m in c && p in c[m] && c[m][p] <= now)
  {
  }

  // The receive handler asks before it holds, which rules the stale pair out.
  lemma AskThenHold(c: Entries, m: Id, p: Id, asked: int, held: int, now: int)
    requires asked <= held <= now
    requires !Known(c, m, asked)
    ensures Known(Held(Sweep(c, asked), m, p, held), m, now) <==> now <= held + 10_000_000_000
  {
    var after := Held(Sweep(c, asked), m, p, held);
    assert after[m] == map[p := held + TIME_TO_LIVE];
    KnownMeans(after, m, now);
    assert p in after[m];
  }

  // ---- The cache as a flat timed set ----

  datatype Record = Record(message: Id, peer: Id, deadline: int)

  // Every accepted hold since the latest reset, and the time of the latest sweep. Nothing else
  // ever removes a record.
  datatype Flat = Flat(records: set<Record>, swept: int)

  datatype Operation =
    | Ask(message: Id, now: int)
    | AskFor(message: Id, peer: Id, now: int, later: int)
    | Hold(message: Id, peer: Id, now: int)
    | Reset(now: int)

  function Apply(c: Entries, op: Operation): (Entries, bool) {
    match op
    case Ask(m, now) => (Sweep(c, now), Known(c, m, now))
    case AskFor(m, p, now, later) => (Sweep(c, now), KnownFor(Sweep(c, now), m, p, later))
    case Hold(m, p, now) => (Held(c, m, p, now), false)
    case Reset(_) => (map[], false)
  }

  ghost function ApplyFlat(f: Flat, op: Operation): (Flat, bool) {
    match op
    case Ask(m, now) =>
      (f.(swept := now), exists r :: r in f.records && r.message == m && now <= r.deadline)
    case AskFor(m, p, now, later) =>
      (f.(swept := now), exists r :: r in f.records && r.message == m && r.peer == p && later < r.deadline)
    case Hold(m, p, now) =>
      if exists r :: r in f.records && r.message == m && r.peer == p && f.swept <= r.deadline then (f, false)
      else (f.(records := f.records + {Record(m, p, now + TIME_TO_LIVE)}), false)
    case Reset(_) => (f.(records := {}), false)
  }

  function Started(op: Operation): int {
    op.now
  }

  function Finished(op: Operation): int {
    if op.AskFor? then op.later else op.now
  }

  predicate Monotone(ops: seq<Operation>, clock: int) {
    ops == [] || (clock <= Started(ops[0]) <= Finished(ops[0]) && Monotone(ops[1..], Finished(ops[0])))
  }

  function Answers(c: Entries, ops: seq<Operation>): seq<bool>
    decreases |ops|
  {
    if ops == [] then [] else [Apply(c, ops[0]).1] + Answers(Apply(c, ops[0]).0, ops[1..])
  }

  ghost function FlatAnswers(f: Flat, ops: seq<Operation>): seq<bool>
    decreases |ops|
  {
    if ops == [] then [] else [ApplyFlat(f, ops[0]).1] + FlatAnswers(ApplyFlat(f, ops[0]).0, ops[1..])
  }

  // The nested map holds exactly the records that the latest sweep would spare.
  ghost predicate Views(c: Entries, f: Flat, clock: int) {
    && NoEmptyEntry(c)
    && f.swept <= clock
    && (forall m, p :: m in c && p in c[m] ==> f.swept <= c[m][p] && Record(m, p, c[m][p]) in f.records)
    && (forall r :: r in f.records && f.swept <= r.deadline ==>
          r.message in c && r.peer in c[r.message] && c[r.message][r.peer] == r.deadline)
  }

  lemma SweepViews(c: Entries, f: Flat, clock: int, now: int, later: int)
    requires Views(c, f, clock) && clock <= now <= later
    ensures Views(Sweep(c, now), f.(swept := now), later)
  {
    forall m, p { SweepMeans(c, m, p, now); }
  }

  lemma AskAgrees(c: Entries, f: Flat, clock: int, m: Id, now: int)
    requires Views(c, f, clock) && clock <= now
    ensures Known(c, m, now) <==> exists r :: r in f.records && r.message == m && now <= r.deadline
  {
    KnownMeans(c, m, now);
    if p :| m in c && p in c[m] && now <= c[m][p] {
      assert Record(m, p, c[m][p]) in f.records;
    }
  }

  lemma AskForAgrees(c: Entries, f: Flat, clock: int, m: Id, p: Id, now: int, later: int)
    requires Views(c, f, clock) && clock <= now <= later
    ensures KnownFor(Sweep(c, now), m, p, later) <==>
            exists r :: r in f.records && r.message == m && r.peer == p && later < r.deadline
  {
    SweepMeans(c, m, p, now);
    if KnownFor(Sweep(c, now), m, p, later) {
      assert Record(m, p, c[m][p]) in f.records;
    }
  }

  lemma HoldViews(c: Entries, f: Flat, clock: int, m: Id, p: Id, now: int)
    requires Views(c, f, clock) && clock <= now
    ensures Views(Held(c, m, p, now), ApplyFlat(f, Hold(m, p, now)).0, now)
  {
    if m in c && p in c[m] {
      assert Record(m, p, c[m][p]) in f.records;
    }
    assert m in Held(c, m, p, now) && p in Held(c, m, p, now)[m];
  }

  lemma ApplyViews(c: Entries, f: Flat, clock: int, op: Operation)
    requires Views(c, f, clock) && clock <= Started(op) <= Finished(op)
    ensures Apply(c, op).1 == ApplyFlat(f, op).1
    ensures Views(Apply(c, op).0, ApplyFlat(f, op).0, Finished(op))
  {
    match op
    case Ask(m, now) =>
      SweepViews(c, f, clock, now, now);
      AskAgrees(c, f, clock, m, now);
    case AskFor(m, p, now, later) =>
      SweepViews(c, f, clock, now, later);
      AskForAgrees(c, f, clock, m, p, now, later);
    case Hold(m, p, now) =>
      HoldViews(c, f, clock, m, p, now);
    case Reset(_) =>
  }

  // Over every operation sequence the swept nested map answers as the flat set does.
  lemma {:induction false} AnswersAgree(c: Entries, f: Flat, clock: int, ops: seq<Operation>)
    requires Views(c, f, clock) && Monotone(ops, clock)
    ensures Answers(c, ops) == FlatAnswers(f, ops)
    decreases |ops|
  {
    if ops == [] {
    } else {
      ApplyViews(c, f, clock, ops[0]);
      AnswersAgree(Apply(c, ops[0]).0, ApplyFlat(f, ops[0]).0, Finished(ops[0]), ops[1..]);
    }
  }

  class MessageCache {
    var entries: Entries

    ghost predicate Valid() reads this {
      NoEmptyEntry(entries)
    }

    constructor ()
      ensures Valid() && entries == map[]
    {
      entries := map[];
    }

    method ClearOutdated(now: int)
      modifies this
      ensures Valid() && entries == Sweep(old(entries), now)
    {
      var before := entries;
      var messages := entries.Keys;
      while messages != {}
        invariant messages <= before.Keys
        invariant forall m :: m in messages ==> m in entries && entries[m] == before[m]
        invariant forall m :: m in before.Keys - messages ==>
                                if m in Sweep(before, now) then m in entries && entries[m] == Sweep(before, now)[m]
                                else m !in entries
        invariant entries.Keys <= before.Keys
      {
        var m :| m in messages;
        messages := messages - {m};
        var kept := SweepReceivers(entries[m], now);
        if kept == map[] {
          entries := entries - {m};
        } else {
          entries := entries[m := kept];
        }
      }
    }

    static method SweepReceivers(receivers: Receivers, now: int) returns (kept: Receivers)
      ensures kept == Unexpired(receivers, now)
    {
      kept := receivers;
      var peers := receivers.Keys;
      while peers != {}
        invariant peers <= receivers.Keys
        invariant forall p :: p in kept <==> p in receivers && (p in peers || now <= receivers[p])
        invariant forall p :: p in kept ==> kept[p] == receivers[p]
      {
        var p :| p in peers;
        peers := peers - {p};
        if kept[p] < now {
          kept := kept - {p};
        }
      }
    }

    // The clock is read twice: once to sweep, once to answer.
    method ContainsMessageForPeer(message: Id, peer: Id, now: int, later: int) returns (known: bool)
      requires now <= later
      modifies this
      ensures Valid() && entries == Sweep(old(entries), now)
      ensures known == KnownFor(old(entries), message, peer, later)
    {
      ClearOutdated(now);
      SweepInvisible(old(entries), message, peer, now, later);
      if message !in entries {
        known := false;
      } else if peer !in entries[message] {
        known := false;
      } else {
        known := later < entries[message][peer];
      }
    }

    method ContainsMessage(message: Id, now: int) returns (known: bool)
      modifies this
      ensures Valid() && entries == Sweep(old(entries), now)
      ensures known == Known(old(entries), message, now)
    {
      ClearOutdated(now);
      known := message in entries;
    }

    method Hold(message: Id, peer: Id, now: int)
      requires Valid()
      modifies this
      ensures Valid() && entries == Held(old(entries), message, peer, now)
    {
      if message !in entries {
        entries := entries[message := map[peer := now + TIME_TO_LIVE]];
        assert peer in entries[message];
      } else if peer !in entries[message] {
        entries := entries[message := entries[message][peer := now + TIME_TO_LIVE]];
        assert peer in entries[message];
      }
    }

    method Reset()
      modifies this
      ensures Valid() && entries == map[]
    {
      entries := map[];
    }
  }
}
