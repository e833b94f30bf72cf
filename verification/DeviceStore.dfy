// Devices as database items with four attributes (main/data/adapters.go).
module DeviceStore {
  import opened Entity
  import opened ByteSlice
  import opened Database

  // Version-5 UUIDs of the attribute names in the URL name space.
  const TYPE_ATTR: Id := Id([97, 48, 74, 237, 40, 167, 90, 215, 169, 169, 58, 133, 194, 176, 59, 233])
  const STATE_ATTR: Id := Id([124, 80, 146, 125, 246, 33, 83, 81, 187, 178, 66, 145, 1, 127, 248, 59])
  const VERSION_ATTR: Id := Id([46, 63, 53, 148, 15, 81, 84, 64, 161, 137, 225, 124, 186, 224, 214, 165])
  const OWNER_ATTR: Id := Id([75, 104, 170, 15, 248, 54, 87, 239, 136, 192, 136, 222, 122, 31, 69, 64])

  lemma AttributesDistinct()
    ensures TYPE_ATTR != STATE_ATTR && TYPE_ATTR != VERSION_ATTR && TYPE_ATTR != OWNER_ATTR
    ensures STATE_ATTR != VERSION_ATTR && STATE_ATTR != OWNER_ATTR && VERSION_ATTR != OWNER_ATTR
    ensures ZERO_ID !in {TYPE_ATTR, STATE_ATTR, VERSION_ATTR, OWNER_ATTR}
  {
  }

  type Devices = map<Id, Device>

  function ByteOf(data: Bytes): Byte {
    if |data| == 0 then 0 else data[|data| - 1]
  }

  function StateAttributes(state: Byte, version: Int64): Attributes {
    map[STATE_ATTR := [state], VERSION_ATTR := Int64Bytes(version)]
  }

  function AttributesOf(d: Device): Attributes {
    map[TYPE_ATTR := [d.kind], STATE_ATTR := [d.state],
        VERSION_ATTR := Int64Bytes(d.version), OWNER_ATTR := d.owner.raw]
  }

  predicate Readable(d: Device) {
    d.kind != KIND_UNKNOWN
  }

  // A patch replaces the state and the version and keeps the type and the owner.
  lemma PatchedAttributes(d: Device, state: Byte, version: Int64)
    ensures AttributesOf(d) + StateAttributes(state, version) == AttributesOf(d.(state := state, version := version))
  {
  }

  // Saving a whole device leaves nothing of the one it replaces.
  lemma AttributesOverwrite(was: Device, d: Device)
    ensures AttributesOf(was) + AttributesOf(d) == AttributesOf(d)
  {
  }

  lemma AttributesInjective(d: Device, e: Device)
    requires d.id == e.id && AttributesOf(d) == AttributesOf(e)
    ensures d == e
  {
    AttributesDistinct();
    assert AttributesOf(d)[TYPE_ATTR] == AttributesOf(e)[TYPE_ATTR];
    assert AttributesOf(d)[STATE_ATTR] == AttributesOf(e)[STATE_ATTR];
    assert AttributesOf(d)[VERSION_ATTR] == AttributesOf(e)[VERSION_ATTR];
    assert AttributesOf(d)[OWNER_ATTR] == AttributesOf(e)[OWNER_ATTR];
    Int64RoundTrip(d.version);
    Int64RoundTrip(e.version);
  }

  // The database holds exactly these devices.
  ghost predicate Represents(model: Model, devices: Devices) {
    && model.Keys == devices.Keys && ZERO_ID !in devices
    && (forall id :: id in devices ==> devices[id].id == id && model[id] == AttributesOf(devices[id]))
  }

  class DeviceStore {
    const db: Database
    ghost var devices: Devices

    ghost predicate Valid() reads this, db {
      db.Valid() && Represents(db.contents, devices)
    }

    constructor ()
      ensures Valid() && fresh(db) && devices == map[]
    {
      db := new Database();
      devices := map[];
    }

    method GetDeviceIds() returns (ids: seq<Id>)
      requires Valid()
      ensures forall id :: id in ids <==> id in devices
      ensures forall i, j :: 0 <= i < j < |ids| ==> ids[i] != ids[j]
    {
      var data := db.Get(ZERO_ID, ZERO_ID);
      ids := Enumerate(data.value);
    }

    static method Enumerate(data: Attributes) returns (ids: seq<Id>)
      ensures forall id :: id in ids <==> id in data
      ensures forall i, j :: 0 <= i < j < |ids| ==> ids[i] != ids[j]
    {
      var keys := data.Keys;
      ids := [];
      while keys != {}
        invariant keys <= data.Keys
        invariant forall id :: id in ids <==> id in data.Keys - keys
        invariant forall i, j :: 0 <= i < j < |ids| ==> ids[i] != ids[j]
      {
        var id :| id in keys;
        assert id !in ids;
        keys := keys - {id};
        ids := ids + [id];
      }
    }

    method GetOwner(id: Id) returns (owner: Result<Id>)
      requires Valid()
      ensures id in devices ==> owner == Ok(devices[id].owner)
      ensures id !in devices ==> owner == Error
    {
      AttributesDistinct();
      var data := db.Get(id, OWNER_ATTR);
      if !data.Ok? {
        return Error;
      }
      owner := NewBytesId(if OWNER_ATTR in data.value then data.value[OWNER_ATTR] else []);
    }

    // For the zero id the scan finds nothing, which reads as version 0.
    method GetVersion(id: Id) returns (version: Result<Int64>)
      requires Valid()
      ensures id in devices ==> version == Ok(devices[id].version)
      ensures id !in devices ==> version == if id == ZERO_ID then Ok(0) else Error
    {
      AttributesDistinct();
      var data := db.Get(id, VERSION_ATTR);
      if !data.Ok? {
        return Error;
      }
      var v := BytesToInt64(if VERSION_ATTR in data.value then data.value[VERSION_ATTR] else []);
      if id in devices {
        Int64RoundTrip(devices[id].version);
      }
      version := Ok(v);
    }

    // Reads back what was stored, except devices of the unknown type.
    method GetDevice(id: Id) returns (r: Result<Device>)
      requires Valid() && id != ZERO_ID
      ensures r == if id in devices && devices[id].kind != 15 then Ok(devices[id]) else Error
    {
      var data := db.Get(id, ZERO_ID);
      r := Assemble(id, data.value, if id in devices then Some(devices[id]) else None);
    }

    static method Assemble(id: Id, data: Attributes, ghost stored: Option<Device>) returns (r: Result<Device>)
      requires data == if stored.Some? then AttributesOf(stored.value) else map[]
      requires stored.Some? ==> stored.value.id == id
      ensures r == if stored.Some? && Readable(stored.value) then Ok(stored.value) else Error
    {
      AttributesDistinct();
      var owner, kind, state, version := ZERO_ID, KIND_UNKNOWN, 0, 0;
      var attrs := data.Keys;
      while attrs != {}
        invariant attrs <= data.Keys
        invariant OWNER_ATTR in data.Keys - attrs ==> owner == stored.value.owner
        invariant STATE_ATTR in data.Keys - attrs ==> state == stored.value.state
        invariant VERSION_ATTR in data.Keys - attrs ==> version == stored.value.version
        invariant kind == if TYPE_ATTR in data.Keys - attrs then stored.value.kind else KIND_UNKNOWN
      {
        var attr :| attr in attrs;
        attrs := attrs - {attr};
        if attr == OWNER_ATTR {
          var bytesId := NewBytesId(data[attr]);
          owner := if bytesId.Ok? then bytesId.value else ZERO_ID;
        } else if attr == TYPE_ATTR {
          kind := ByteOf(data[attr]);
        } else if attr == STATE_ATTR {
          state := ByteOf(data[attr]);
        } else if attr == VERSION_ATTR {
          version := BytesToInt64(data[attr]);
          Int64RoundTrip(stored.value.version);
        }
      }
      r := if kind == KIND_UNKNOWN then Error else Ok(Device(id, owner, kind, state, version));
    }

    method CreateDevice(d: Device)
      requires Valid() && d.id != ZERO_ID
      modifies this, db
      ensures Valid() && devices == old(devices)[d.id := d]
    {
      AttributesDistinct();
      var data: Attributes := map[];
      data := data[TYPE_ATTR := [d.kind]];
      data := data[STATE_ATTR := [d.state]];
      var version := Int64ToBytes(d.version);
      data := data[VERSION_ATTR := version[..]];
      data := data[OWNER_ATTR := d.owner.raw];
      assert data == AttributesOf(d);
      if d.id in devices {
        AttributesOverwrite(devices[d.id], d);
      } else {
        assert map[] + data == data;
      }
      db.Set(d.id, data);
      devices := devices[d.id := d];
    }

    method PatchState(id: Id, state: Byte, version: Int64)
      requires Valid() && id in devices && id != ZERO_ID
      modifies this, db
      ensures Valid()
      ensures devices == old(devices)[id := old(devices)[id].(state := state, version := version)]
    {
      AttributesDistinct();
      var data: Attributes := map[];
      data := data[STATE_ATTR := [state]];
      var versionBytes := Int64ToBytes(version);
      data := data[VERSION_ATTR := versionBytes[..]];
      assert data == StateAttributes(state, version);
      PatchedAttributes(devices[id], state, version);
      db.Set(id, data);
      devices := devices[id := devices[id].(state := state, version := version)];
    }
  }
}
