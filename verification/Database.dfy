// Items with attributes, flattened into one ordered key space (main/data/database.go).
module Database {
  import opened Entity
  import opened KeyOrder

  type Table = map<Bytes, Bytes>
  type Attributes = map<Id, Bytes>
  type Model = map<Id, Attributes>

  function Key(id: Id, attribute: Id): Bytes {
    if attribute == ZERO_ID then id.raw else id.raw + attribute.raw
  }

  // <zero><id> for every live item, <id><attribute> for every attribute, and nothing else.
  ghost predicate Refines(t: Table, model: Model) {
    && (forall id :: id in model ==> id != ZERO_ID && ZERO_ID !in model[id])
    && (forall id {:trigger Key(ZERO_ID, id)} :: id in model ==> Key(ZERO_ID, id) in t)
    && (forall id, a {:trigger Key(id, a)} :: id in model && a in model[id] ==>
          Key(id, a) in t && t[Key(id, a)] == model[id][a])
    && (forall k :: k in t ==> Explained(k, model))
  }

  ghost predicate Explained(k: Bytes, model: Model) {
    && |k| == 32
    && (if k[..16] == ZERO_ID.raw then Id(k[16..]) in model
        else Id(k[..16]) in model && Id(k[16..]) in model[Id(k[..16])])
  }

  lemma KeyParts(id: Id, attribute: Id)
    requires attribute != ZERO_ID
    ensures |Key(id, attribute)| == 32
    ensures Key(id, attribute)[..16] == id.raw
    ensures Key(id, attribute)[16..] == attribute.raw
  {
  }

  lemma KeyInjective(id: Id, a: Id, id': Id, a': Id)
    requires a != ZERO_ID && a' != ZERO_ID
    ensures Key(id, a) == Key(id', a') <==> id == id' && a == a'
  {
    KeyParts(id, a);
    KeyParts(id', a');
  }

  lemma LiveKeys(t: Table, model: Model, id: Id, a: Id)
    requires Refines(t, model) && a != ZERO_ID
    ensures Key(ZERO_ID, a) in t <==> a in model
    ensures id != ZERO_ID ==> (Key(id, a) in t <==> id in model && a in model[id])
  {
  }

  // What a scan collects: the 16-byte suffixes of the keys with the prefix.
  ghost predicate IsScan(t: Table, prefix: Bytes, found: Attributes) {
    forall a: Id :: (a in found <==> prefix + a.raw in t) && (a in found ==> found[a] == t[prefix + a.raw])
  }

  // Listing returns exactly the live ids.
  lemma ScanLists(t: Table, model: Model, found: Attributes)
    requires Refines(t, model) && IsScan(t, ZERO_ID.raw, found)
    ensures found.Keys == model.Keys
  {
    forall id: Id
      ensures id in found <==> id in model
    {
      if id == ZERO_ID {
        var k := ZERO_ID.raw + id.raw;
        assert k[..16] == ZERO_ID.raw && k[16..] == ZERO_ID.raw;
        assert k in t ==> Explained(k, model);
      } else {
        LiveKeys(t, model, ZERO_ID, id);
      }
    }
  }

  // Scanning an item returns its attributes, and nothing when the item does not exist.
  lemma ScanReads(t: Table, model: Model, id: Id, found: Attributes)
    requires Refines(t, model) && IsScan(t, id.raw, found) && id != ZERO_ID
    ensures found == if id in model then model[id] else map[]
  {
    forall a: Id
      ensures a in found <==> id in model && a in model[id]
      ensures a in found && id in model ==> found[a] == model[id][a]
    {
      assert a in found ==> found[a] == t[id.raw + a.raw];
      assert a != ZERO_ID ==> Key(id, a) == id.raw + a.raw;
      if a == ZERO_ID {
        var k := id.raw + a.raw;
        assert k[..16] == id.raw && k[16..] == a.raw;
        assert k in t ==> Explained(k, model);
      } else {
        LiveKeys(t, model, id, a);
      }
    }
  }

  // A scan under <zero><id> finds only the index key itself, whose suffix is no id.
  lemma ScanBelowIndex(t: Table, model: Model, id: Id, found: Attributes)
    requires Refines(t, model) && IsScan(t, Key(ZERO_ID, id), found) && id != ZERO_ID
    ensures found == map[]
  {
  }

  function WithAttribute(model: Model, id: Id, a: Id, value: Bytes): Model {
    model[id := (if id in model then model[id] else map[])[a := value]]
  }

  lemma MergeOne(model: Model, id: Id, done: Attributes, a: Id, value: Bytes)
    requires id in model
    ensures WithAttribute(model[id := model[id] + done], id, a, value) == model[id := model[id] + done[a := value]]
  {
    assert (model[id] + done)[a := value] == model[id] + done[a := value];
  }

  lemma IndexRefines(t: Table, model: Model, id: Id)
    requires Refines(t, model) && id != ZERO_ID
    ensures Refines(t[Key(ZERO_ID, id) := []], model[id := if id in model then model[id] else map[]])
  {
    var u := t[Key(ZERO_ID, id) := []];
    var wider := model[id := if id in model then model[id] else map[]];
    KeyParts(ZERO_ID, id);
    forall id', a | id' in wider && a in wider[id']
      ensures Key(id', a) in u && u[Key(id', a)] == wider[id'][a]
    {
      KeyInjective(id', a, ZERO_ID, id);
    }
    forall k | k in u
      ensures Explained(k, wider)
    {
      assert k != Key(ZERO_ID, id) ==> Explained(k, model);
    }
  }

  lemma AttributeRefines(t: Table, model: Model, id: Id, a: Id, value: Bytes)
    requires Refines(t, model) && id in model && a != ZERO_ID
    ensures Refines(t[Key(id, a) := value], WithAttribute(model, id, a, value))
  {
    var u, wider := t[Key(id, a) := value], WithAttribute(model, id, a, value);
    KeyParts(id, a);
    forall id', a' | id' in wider && a' in wider[id']
      ensures Key(id', a') in u && u[Key(id', a')] == wider[id'][a']
    {
      KeyInjective(id', a', id, a);
    }
    forall k | k in u
      ensures Explained(k, wider)
    {
      assert k != Key(id, a) ==> Explained(k, model);
    }
  }

  // The zero id is no item: an attribute written under it would turn up in the listing as one,
  // and only then does a write disturb the listing.
  lemma WriteListing(t: Table, model: Model, id: Id, a: Id, value: Bytes, found: Attributes)
    requires Refines(t, model) && a != ZERO_ID
    requires IsScan(t[Key(id, a) := value], ZERO_ID.raw, found)
    ensures found.Keys == model.Keys <==> id != ZERO_ID || a in model
  {
    var u := t[Key(id, a) := value];
    forall item: Id
      ensures item in found <==> item in model || (id == ZERO_ID && item == a)
    {
      if item == ZERO_ID {
        var k := ZERO_ID.raw + item.raw;
        assert k[..16] == ZERO_ID.raw && k[16..] == ZERO_ID.raw;
        assert k in t ==> Explained(k, model);
        KeyParts(id, a);
      } else {
        LiveKeys(t, model, ZERO_ID, item);
        KeyInjective(ZERO_ID, item, id, a);
        assert Key(ZERO_ID, item) == ZERO_ID.raw + item.raw;
      }
    }
  }

  function Dropped(t: Table, prefix: Bytes, prefix': Bytes): Table {
    map k | k in t && !(prefix <= k) && !(prefix' <= k) :: t[k]
  }

  function AfterDelete(t: Table, id: Id): Table {
    Dropped(t, Key(ZERO_ID, id), Key(id, ZERO_ID))
  }

  lemma DeleteKeepsAttribute(t: Table, model: Model, id: Id, id': Id, a: Id)
    requires Refines(t, model) && id != ZERO_ID && id' in model && id' != id && a in model[id']
    ensures Key(id', a) in AfterDelete(t, id)
    ensures AfterDelete(t, id)[Key(id', a)] == model[id'][a]
  {
  }

  lemma DeleteKeepsIndex(t: Table, model: Model, id: Id, id': Id)
    requires Refines(t, model) && id != ZERO_ID && id' in model && id' != id
    ensures Key(ZERO_ID, id') in AfterDelete(t, id)
  {
  }

  lemma DeleteLeavesExplained(t: Table, model: Model, id: Id, k: Bytes)
    requires Refines(t, model) && id != ZERO_ID && k in AfterDelete(t, id)
    ensures Explained(k, model - {id})
  {
  }

  lemma DeleteNonZero(t: Table, model: Model, id: Id)
    requires Refines(t, model) && id != ZERO_ID
    ensures Refines(AfterDelete(t, id), model - {id})
  {
    var u, rest := AfterDelete(t, id), model - {id};
    forall id' | id' in rest
      ensures id' != ZERO_ID && ZERO_ID !in rest[id'] && Key(ZERO_ID, id') in u
    {
      DeleteKeepsIndex(t, model, id, id');
    }
    forall id', a | id' in rest && a in rest[id']
      ensures Key(id', a) in u && u[Key(id', a)] == rest[id'][a]
    {
      DeleteKeepsAttribute(t, model, id, id', a);
    }
    forall k | k in u
      ensures Explained(k, rest)
    {
      DeleteLeavesExplained(t, model, id, k);
    }
  }

  lemma DeleteZero(t: Table, model: Model, id: Id)
    requires Refines(t, model) && id in model
    ensures Key(ZERO_ID, id) !in AfterDelete(t, ZERO_ID)
  {
  }

  // Delete removes one item and nothing else, except that the zero id names the index itself:
  // deleting it unlists every item.
  lemma DeleteRefines(t: Table, model: Model, id: Id)
    requires Refines(t, model)
    ensures Refines(AfterDelete(t, id), model - {id}) <==> id != ZERO_ID || model == map[]
  {
    if id != ZERO_ID {
      DeleteNonZero(t, model, id);
    } else if model == map[] {
      assert forall k :: k in t ==> Explained(k, model);
    } else {
      var live :| live in model;
      DeleteZero(t, model, live);
      assert live in model - {id};
    }
  }

  class Database {
    var keys: seq<Bytes>
    var values: Table
    ghost var contents: Model

    ghost predicate Ordered() reads this {
      Sorted(keys) && KeySet(keys) == values.Keys
    }

    ghost predicate Valid() reads this {
      Ordered() && Refines(values, contents)
    }

    constructor ()
      ensures Valid() && contents == map[]
    {
      keys, values, contents := [], map[], map[];
    }

    // Iterator.Seek
    method Seek(key: Bytes) returns (at: nat)
      requires Ordered()
      ensures Seeks(keys, key, at)
    {
      at := 0;
      while at < |keys| && !Leq(key, keys[at])
        invariant at <= |keys|
        invariant forall i :: 0 <= i < at ==> !Leq(key, keys[i])
      {
        at := at + 1;
      }
    }

    // Txn.Set
    method Put(key: Bytes, value: Bytes)
      requires Ordered()
      modifies this`keys, this`values
      ensures Ordered() && values == old(values)[key := value]
    {
      if key !in values {
        var at := Seek(key);
        assert key !in keys by { assert key !in KeySet(keys); }
        InsertedSorted(keys, key, at);
        keys := keys[..at] + [key] + keys[at..];
      }
      values := values[key := value];
    }

    // DB.DropPrefix
    method DropPrefix(prefix: Bytes, prefix': Bytes)
      requires Ordered()
      modifies this`keys, this`values
      ensures Ordered() && values == Dropped(old(values), prefix, prefix')
    {
      var kept: seq<Bytes> := [];
      for i := 0 to |keys|
        invariant Sorted(kept)
        invariant forall k :: k in kept ==> k in keys && !(prefix <= k) && !(prefix' <= k)
        invariant forall j :: 0 <= j < i && !(prefix <= keys[j]) && !(prefix' <= keys[j]) ==> keys[j] in kept
        invariant forall h, j :: 0 <= h < |kept| && i <= j < |keys| ==> Less(kept[h], keys[j])
      {
        if !(prefix <= keys[i]) && !(prefix' <= keys[i]) {
          kept := kept + [keys[i]];
        }
      }
      var rest := map k | k in values && !(prefix <= k) && !(prefix' <= k) :: values[k];
      forall k
        ensures k in kept <==> k in rest
      {
        assert k in values <==> k in KeySet(keys);
      }
      keys, values := kept, rest;
    }

    method CopySingleAttribute(key: Bytes, attribute: Id) returns (r: Result<Attributes>)
      ensures r == if key in values then Ok(map[attribute := values[key]]) else Error
    {
      if key !in values {
        return Error;
      }
      r := Ok(map[attribute := values[key]]);
    }

    method CopyAllAttributes(prefix: Bytes) returns (found: Attributes)
      requires Ordered()
      ensures IsScan(values, prefix, found)
    {
      found := map[];
      var from := Seek(prefix);
      var i := from;
      while i < |keys| && prefix <= keys[i]
        invariant from <= i <= |keys|
        invariant forall j :: from <= j < i ==> prefix <= keys[j]
        invariant forall a: Id :: a in found ==> prefix + a.raw in values && found[a] == values[prefix + a.raw]
        invariant forall a: Id, j :: from <= j < i && keys[j] == prefix + a.raw ==> a in found
      {
        assert keys[i] in KeySet(keys);
        var attr := NewBytesId(keys[i][|prefix|..]);
        if attr.Ok? {
          assert keys[i] == prefix + attr.value.raw;
          found := found[attr.value := values[keys[i]]];
        }
        i := i + 1;
      }
      ScanComplete(keys, prefix, from, i);
      forall a: Id | prefix + a.raw in values
        ensures a in found
      {
        assert prefix + a.raw in KeySet(keys);
        var j :| 0 <= j < |keys| && keys[j] == prefix + a.raw;
      }
    }

    method Get(id: Id, attribute: Id) returns (r: Result<Attributes>)
      requires Valid()
      ensures id != ZERO_ID && attribute != ZERO_ID ==>
                r == if id in contents && attribute in contents[id]
                     then Ok(map[attribute := contents[id][attribute]]) else Error
      ensures id != ZERO_ID && attribute == ZERO_ID ==>
                r == Ok(if id in contents then contents[id] else map[])
      ensures id == ZERO_ID && attribute == ZERO_ID ==> r.Ok? && r.value.Keys == contents.Keys
      ensures id == ZERO_ID && attribute != ZERO_ID ==> r == Ok(map[])
    {
      var key := if attribute == ZERO_ID then id.raw else id.raw + attribute.raw;
      if id != ZERO_ID && attribute != ZERO_ID {
        LiveKeys(values, contents, id, attribute);
        r := CopySingleAttribute(key, attribute);
      } else {
        var found := CopyAllAttributes(key);
        if id != ZERO_ID {
          ScanReads(values, contents, id, found);
        } else if attribute == ZERO_ID {
          ScanLists(values, contents, found);
        } else {
          ScanBelowIndex(values, contents, attribute, found);
        }
        r := Ok(found);
      }
    }

    method SetIndex(id: Id)
      requires Valid() && id != ZERO_ID
      modifies this
      ensures Valid()
      ensures contents == old(contents)[id := if id in old(contents) then old(contents)[id] else map[]]
    {
      IndexRefines(values, contents, id);
      Put(ZERO_ID.raw + id.raw, []);
      contents := contents[id := if id in contents then contents[id] else map[]];
    }

    method SetAttribute(id: Id, a: Id, value: Bytes)
      requires Valid() && id in contents && a != ZERO_ID
      modifies this
      ensures Valid() && contents == WithAttribute(old(contents), id, a, value)
    {
      AttributeRefines(values, contents, id, a, value);
      Put(id.raw + a.raw, value);
      contents := WithAttribute(contents, id, a, value);
    }

    // Set merges the given attributes into the item, which it creates when needed.
    method Set(id: Id, data: Attributes)
      requires Valid() && id != ZERO_ID && ZERO_ID !in data
      modifies this
      ensures Valid()
      ensures contents == old(contents)[id := (if id in old(contents) then old(contents)[id] else map[]) + data]
    {
      SetIndex(id);
      SetAttributes(id, data);
    }

    method SetAttributes(id: Id, data: Attributes)
      requires Valid() && id in contents && ZERO_ID !in data
      modifies this
      ensures Valid() && contents == old(contents)[id := old(contents)[id] + data]
    {
      ghost var was := contents;
      var attrs := data.Keys;
      assert was[id] + (data - attrs) == was[id];
      while attrs != {}
        invariant Valid() && attrs <= data.Keys
        invariant contents == was[id := was[id] + (data - attrs)]
      {
        var a :| a in attrs;
        ghost var done := data - attrs;
        attrs := attrs - {a};
        MergeOne(was, id, done, a, data[a]);
        assert done[a := data[a]] == data - attrs;
        SetAttribute(id, a, data[a]);
      }
      assert data - {} == data;
    }

    method Delete(id: Id)
      requires Valid() && id != ZERO_ID
      modifies this
      ensures Valid() && contents == old(contents) - {id}
    {
      DeleteRefines(values, contents, id);
      DropPrefix(ZERO_ID.raw + id.raw, id.raw);
      contents := contents - {id};
    }
  }
}
