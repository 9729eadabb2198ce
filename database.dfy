/**
 * The in-memory room registry: a map from room code to room object. A JavaScript
 * `Map` iterates in insertion order, so the model keeps that order beside the map
 * (setting an existing key keeps its place, deleting a key removes it).
 */
module Database {
  import opened Wrappers
  import opened RoomTypes

  /** No code appears twice. */
  predicate DistinctCodes(codes: seq<string>)
  {
    forall i, j :: 0 <= i < j < |codes| ==> codes[i] != codes[j]
  }

  /** `codes` without `code`, the rest in their order. */
  function WithoutCode(codes: seq<string>, code: string): (r: seq<string>)
    ensures forall c :: c in r <==> c in codes && c != code
    ensures DistinctCodes(codes) ==> DistinctCodes(r)
    ensures |r| <= |codes|
  {
    if codes == [] then []
    else if codes[0] == code then WithoutCode(codes[1..], code)
    else
      var rest := WithoutCode(codes[1..], code);
      assert DistinctCodes(codes) ==> codes[0] !in codes[1..] && DistinctCodes(codes[1..]);
      [codes[0]] + rest
  }

  /**
   * The removal works code by code, so it keeps the order of what it keeps:
   * removing from `a + b` is removing from `a`, then from `b`.
   */
  lemma {:induction false} WithoutCodeAppend(a: seq<string>, b: seq<string>, code: string)
    ensures WithoutCode(a + b, code) == WithoutCode(a, code) + WithoutCode(b, code)
    decreases |a|
  {
    if a == [] {
      assert a + b == b;
    } else {
      assert (a + b)[1..] == a[1..] + b;
      WithoutCodeAppend(a[1..], b, code);
    }
  }

  /** A sequence without the code is left as it is. */
  lemma {:induction false} WithoutAbsentCode(codes: seq<string>, code: string)
    requires code !in codes
    ensures WithoutCode(codes, code) == codes
    decreases |codes|
  {
    if codes != [] {
      WithoutAbsentCode(codes[1..], code);
      assert [codes[0]] + codes[1..] == codes;
    }
  }

  /** Deleting a code that occurs once closes the gap: the codes before and after it stay, in order. */
  lemma WithoutCodeClosesGap(before: seq<string>, code: string, after: seq<string>)
    requires code !in before && code !in after
    ensures WithoutCode(before + [code] + after, code) == before + after
  {
    var single: seq<string> := [code];
    assert WithoutCode(single, code) == [] by {
      assert single[1..] == [];
    }
    calc {
      WithoutCode(before + single + after, code);
    == { WithoutCodeAppend(before + single, after, code); }
      WithoutCode(before + single, code) + WithoutCode(after, code);
    == { WithoutCodeAppend(before, single, code); }
      WithoutCode(before, code) + WithoutCode(after, code);
    == { WithoutAbsentCode(before, code); WithoutAbsentCode(after, code); }
      before + after;
    }
  }

  class MemoryDatabase {
    var rooms: map<string, Room>
    /** The keys of `rooms` in insertion order. */
    var order: seq<string>

    predicate Valid()
      reads this
    {
      && DistinctCodes(order)
      && (forall c :: c in rooms ==> c in order)
      && (forall i :: 0 <= i < |order| ==> order[i] in rooms)
    }

    constructor ()
      ensures Valid() && rooms == map[] && order == []
    {
      rooms := map[];
      order := [];
    }

    /** `Map.set`: overwrite or insert; a new key goes to the end of the iteration order. */
    method Put(code: string, room: Room)
      requires Valid()
      modifies this
      ensures Valid()
      ensures rooms == old(rooms)[code := room]
      ensures order == if code in old(rooms) then old(order) else old(order) + [code]
    {
      if code !in rooms {
        order := order + [code];
      }
      rooms := rooms[code := room];
    }

    /** `createRoom`: store under the room's own code, replacing any room with that code. */
    method CreateRoom(room: Room)
      requires Valid()
      modifies this
      ensures Valid()
      ensures rooms == old(rooms)[room.config.roomCode := room]
      ensures order == if room.config.roomCode in old(rooms) then old(order) else old(order) + [room.config.roomCode]
    {
      Put(room.config.roomCode, room);
    }

    /** `getRoom`: the stored room, or null for an absent code. */
    method GetRoom(code: string) returns (r: Room?)
      ensures r == (if code in rooms then rooms[code] else null)
    {
      r := if code in rooms then rooms[code] else null;
    }

    /** `updateRoom`: the entry for `code` becomes `room`; no other entry changes. */
    method UpdateRoom(code: string, room: Room)
      requires Valid()
      modifies this
      ensures Valid()
      ensures rooms == old(rooms)[code := room]
      ensures forall c :: c in old(rooms) && c != code ==> c in rooms && rooms[c] == old(rooms)[c]
      ensures order == if code in old(rooms) then old(order) else old(order) + [code]
    {
      Put(code, room);
    }

    /** `deleteRoom`: the code is gone, every other entry and its place in the order stays. */
    method DeleteRoom(code: string)
      requires Valid()
      modifies this
      ensures Valid()
      ensures rooms == old(rooms) - {code}
      ensures code !in rooms
      ensures order == WithoutCode(old(order), code)
    {
      ghost var before := order;
      rooms := rooms - {code};
      order := WithoutCode(order, code);
      forall i | 0 <= i < |order|
        ensures order[i] in rooms
      {
        assert order[i] in order;
        assert order[i] in before && order[i] != code;
      }
    }

    /** The code of the first room, from position i of the insertion order on, holding a player of this connection. */
    function HolderFrom(socketId: string, i: nat): (r: Option<string>)
      requires Valid() && i <= |order|
      reads this, rooms.Values
      ensures r.Some? ==> r.value in rooms && HasSocket(rooms[r.value].players, socketId)
      ensures r.None? <==> forall j :: i <= j < |order| ==> !HasSocket(rooms[order[j]].players, socketId)
      decreases |order| - i
    {
      if i == |order| then None
      else if HasSocket(rooms[order[i]].players, socketId) then Some(order[i])
      else HolderFrom(socketId, i + 1)
    }

    /** The code of the room `findRoomByPlayerSocket` returns, if any. */
    function Holder(socketId: string): Option<string>
      requires Valid()
      reads this, rooms.Values
    {
      HolderFrom(socketId, 0)
    }

    /**
     * `findRoomByPlayerSocket`: the first room in insertion order holding a player
     * of this connection, or null exactly when no stored room holds one.
     */
    method FindRoomByPlayerSocket(socketId: string) returns (r: Room?)
      requires Valid()
      ensures r == (if Holder(socketId).Some? then rooms[Holder(socketId).value] else null)
      ensures r != null ==>
        HasSocket(r.players, socketId) &&
        exists i :: 0 <= i < |order| && rooms[order[i]] == r &&
          forall j :: 0 <= j < i ==> !HasSocket(rooms[order[j]].players, socketId)
      ensures r == null <==> forall c :: c in rooms ==> !HasSocket(rooms[c].players, socketId)
    {
      var i := 0;
      while i < |order|
        invariant 0 <= i <= |order|
        invariant forall j :: 0 <= j < i ==> !HasSocket(rooms[order[j]].players, socketId)
        invariant HolderFrom(socketId, i) == Holder(socketId)
      {
        var room := rooms[order[i]];
        if HasSocket(room.players, socketId) {
          return room;
        }
        i := i + 1;
      }
      return null;
    }
  }

  /** Creating a room and then looking up its code finds that room; other codes are unaffected. */
  method CreateThenGet(db: MemoryDatabase, room: Room, other: string) returns (found: Room?, elsewhere: Room?)
    requires db.Valid()
    modifies db
    ensures found == room
    ensures other != room.config.roomCode ==> elsewhere == (if other in old(db.rooms) then old(db.rooms)[other] else null)
  {
    db.CreateRoom(room);
    found := db.GetRoom(room.config.roomCode);
    elsewhere := db.GetRoom(other);
  }

  /** After deleting a code, looking it up gives null. */
  method DeleteThenGet(db: MemoryDatabase, code: string) returns (found: Room?)
    requires db.Valid()
    modifies db
    ensures found == null
  {
    db.DeleteRoom(code);
    found := db.GetRoom(code);
  }
}
