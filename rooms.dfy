/**
 * The room registry of server.js: the process-wide `rooms` object mapping a
 * room id to the `Set` of its member connections. A JavaScript `Set` keeps
 * its members in insertion order without repeats, so a member set is a
 * sequence without duplicates here, and `add` appends only a newcomer.
 */
module Rooms {

  /** An opaque connection handle: the `ws` socket object. */
  type ConnId = nat

  type Registry = map<string, seq<ConnId>>

  predicate NoDup(s: seq<ConnId>)
  {
    forall i, j :: 0 <= i < j < |s| ==> s[i] != s[j]
  }

  /** Every entry of the registry names a non-empty set of distinct members. */
  predicate WellFormed(rooms: Registry)
  {
    forall k :: k in rooms ==> rooms[k] != [] && NoDup(rooms[k])
  }

  /** `Set.prototype.add`. */
  function AddMember(members: seq<ConnId>, c: ConnId): (r: seq<ConnId>)
    ensures forall x :: x in r <==> x in members || x == c
    ensures NoDup(members) ==> NoDup(r)
    ensures members <= r && |r| <= |members| + 1
  {
    if c in members then members else members + [c]
  }

  /** `Set.prototype.delete`: the other members stay, in their order. */
  function RemoveMember(members: seq<ConnId>, c: ConnId): (r: seq<ConnId>)
    ensures forall x :: x in r <==> x in members && x != c
    ensures NoDup(members) ==> NoDup(r)
    ensures c !in members ==> r == members
    ensures NoDup(members) && c in members ==> |r| == |members| - 1
    decreases |members|
  {
    if members == [] then []
    else
      var rest := RemoveMember(members[1..], c);
      if members[0] == c then rest
      else
        assert NoDup(members) ==> NoDup(members[1..]) && members[0] !in members[1..];
        NoDupPrepend(members[0], rest);
        [members[0]] + rest
  }

  lemma NoDupPrepend(x: ConnId, s: seq<ConnId>)
    ensures NoDup(s) && x !in s ==> NoDup([x] + s)
  {
    if NoDup(s) && x !in s {
      forall i, j | 0 <= i < j < |[x] + s|
        ensures ([x] + s)[i] != ([x] + s)[j]
      {
        if i > 0 {
          assert ([x] + s)[i] == s[i - 1];
        }
      }
    }
  }

  /** `rooms[key] = rooms[key] || new Set(); rooms[key].add(c)`. */
  function AddToRoom(rooms: Registry, key: string, c: ConnId): (r: Registry)
    ensures r.Keys == rooms.Keys + {key}
    ensures forall x :: x in r[key] <==> x == c || (key in rooms && x in rooms[key])
    ensures forall k :: k in rooms && k != key ==> r[k] == rooms[k]
    ensures WellFormed(rooms) ==> WellFormed(r)
  {
    var members := if key in rooms then rooms[key] else [];
    rooms[key := AddMember(members, c)]
  }

  /** `rooms[key].delete(c); if (rooms[key].size === 0) delete rooms[key]`. */
  function RemoveFromRoom(rooms: Registry, key: string, c: ConnId): (r: Registry)
    requires key in rooms
    ensures r.Keys <= rooms.Keys && r.Keys >= rooms.Keys - {key}
    ensures key in r ==> forall x :: x in r[key] <==> x in rooms[key] && x != c
    ensures key !in r ==> forall x :: x in rooms[key] ==> x == c
    ensures forall k :: k in rooms && k != key ==> r[k] == rooms[k]
    ensures WellFormed(rooms) ==> WellFormed(r)
  {
    var rest := RemoveMember(rooms[key], c);
    if rest == [] then rooms - {key} else rooms[key := rest]
  }

  /** `Set.prototype.delete` keeps insertion order: the members after a leave
      are the old ones with that one position cut out, so a later broadcast
      reaches the others in the order they joined. */
  lemma {:induction false} RemoveMemberAt(members: seq<ConnId>, c: ConnId, i: nat)
    requires NoDup(members) && i < |members| && members[i] == c
    ensures RemoveMember(members, c) == members[..i] + members[i + 1..]
    decreases |members|
  {
    var head, tail := members[0], members[1..];
    NoDupTail(members);
    if i == 0 {
      assert RemoveMember(members, c) == RemoveMember(tail, c) == tail;
      assert members[..0] + members[1..] == tail;
    } else {
      assert head != c;
      RemoveMemberAt(tail, c, i - 1);
      assert RemoveMember(members, c) == [head] + RemoveMember(tail, c);
      assert tail[..i - 1] == members[1..i] && tail[i..] == members[i + 1..];
      assert members[..i] == [head] + members[1..i];
    }
  }

  lemma NoDupTail(s: seq<ConnId>)
    requires NoDup(s) && s != []
    ensures NoDup(s[1..]) && s[0] !in s[1..]
  {
    forall j | 0 <= j < |s[1..]|
      ensures s[1..][j] != s[0]
    {
      assert s[1..][j] == s[j + 1];
    }
    forall j, k | 0 <= j < k < |s[1..]|
      ensures s[1..][j] != s[1..][k]
    {
      assert s[1..][j] == s[j + 1] && s[1..][k] == s[k + 1];
    }
  }

  /** Joining twice is joining once: a `Set` holds each member once. */
  lemma AddToRoomIdempotent(rooms: Registry, key: string, c: ConnId)
    ensures AddToRoom(AddToRoom(rooms, key, c), key, c) == AddToRoom(rooms, key, c)
  {
  }

  /** The only member of a room leaving it takes the room away again. */
  lemma {:induction false} AddThenRemoveRestores(rooms: Registry, key: string, c: ConnId)
    requires key !in rooms
    ensures RemoveFromRoom(AddToRoom(rooms, key, c), key, c) == rooms
  {
    var added := AddToRoom(rooms, key, c);
    assert added[key] == [c];
    assert RemoveMember([c], c) == [] + RemoveMember([], c);
    assert added - {key} == rooms;
  }
}
