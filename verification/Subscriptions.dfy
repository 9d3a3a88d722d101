/**
  The subscription table and the notification buffer of the subscription handler.

  The first half gives the operations as functions and relations on values, with what they
  promise; the class `SubscriptionHandler` at the end is the imperative form, whose loops over
  the (unordered) hash maps are proved against them.
 */
module Subscriptions {
  import opened Json
  import Access
  import Database
  import VssPath

  datatype SubId = Uuid(bits: int)
  type ConnId = int
  datatype Kind = WsPlain | WsSsl | HttpPlain | HttpSsl | Grpc
  datatype Key = Key(path: string, attr: string)

  /** Two channels are the same channel when their connection ids agree. */
  datatype Channel = Channel(conn: ConnId, kind: Kind)

  type Subs = map<SubId, Channel>
  type Table = map<Key, Subs>

  /** One buffered notification: for whom, on which channel, and the value that was set. */
  datatype Item = Item(id: SubId, chan: Channel, datatyp: string, value: Json)

  // ------------------------------------------------------------------ the table

  function SubsAt(t: Table, k: Key): Subs {
    if k in t then t[k] else map[]
  }

  /** Each subscription id lives under at most one key. */
  ghost predicate UniqueIds(t: Table) {
    forall k, l, id | k in t && l in t && id in t[k] && id in t[l] :: k == l
  }

  ghost predicate Lives(t: Table, id: SubId) {
    exists k :: k in t && id in t[k]
  }

  function AddSub(t: Table, k: Key, id: SubId, c: Channel): Table {
    t[k := SubsAt(t, k)[id := c]]
  }

  function DropSub(t: Table, id: SubId): Table {
    map k | k in t :: t[k] - {id}
  }

  /** The ids of one channel under one key. */
  function OfConn(m: Subs, conn: ConnId): set<SubId> {
    set id | id in m && m[id].conn == conn
  }

  /** What `unsubscribeAll` picks: under every key that has the channel, one of its ids. */
  ghost predicate IsVictims(t: Table, conn: ConnId, v: map<Key, SubId>) {
    forall k {:trigger k in v} {:trigger k in t} ::
      if k in t && OfConn(t[k], conn) != {} then k in v && v[k] in OfConn(t[k], conn) else k !in v
  }

  /** The victims found while the keys in `todo` are still to be visited. */
  ghost predicate PartVictims(t: Table, conn: ConnId, v: map<Key, SubId>, todo: set<Key>) {
    && (forall k | k in v :: k in t && k !in todo && v[k] in OfConn(t[k], conn))
    && (forall k | k in t && k !in todo && k !in v :: OfConn(t[k], conn) == {})
  }

  lemma PartVictimsDone(t: Table, conn: ConnId, v: map<Key, SubId>)
    requires PartVictims(t, conn, v, {})
    ensures IsVictims(t, conn, v)
    ensures UniqueIds(t) ==> UniqueIds(DropVictims(t, v))
  {
  }

  function DropVictims(t: Table, v: map<Key, SubId>): Table {
    map k | k in t :: if k in v then t[k] - {v[k]} else t[k]
  }

  /** One more key visited, with the match found there, if any. */
  lemma {:induction false} VictimStep(
      t: Table, conn: ConnId, v: map<Key, SubId>, todo: set<Key>, k: Key, found: bool, id: SubId)
    requires PartVictims(t, conn, v, todo) && k in todo && k in t
    requires if found then id in OfConn(t[k], conn) else OfConn(t[k], conn) == {}
    ensures PartVictims(t, conn, if found then v[k := id] else v, todo - {k})
    ensures DropVictims(t, v[k := id]) == DropVictims(t, v)[k := t[k] - {id}]
  {
  }

  /** The effect of one `unsubscribeAll`, whichever match the hash map yields first. */
  ghost predicate AfterUnsubscribeAll(t: Table, conn: ConnId, t': Table) {
    exists v :: IsVictims(t, conn, v) && t' == DropVictims(t, v)
  }

  lemma AddKeepsUnique(t: Table, k: Key, id: SubId, c: Channel)
    requires UniqueIds(t) && !Lives(t, id)
    ensures UniqueIds(AddSub(t, k, id, c))
  {
    var t' := AddSub(t, k, id, c);
    forall k1, k2, i | k1 in t' && k2 in t' && i in t'[k1] && i in t'[k2]
      ensures k1 == k2
    {
      if i == id {
        assert forall j :: j in t' && j != k ==> j in t && t'[j] == t[j];
      } else {
        assert k1 in t && k2 in t && i in t[k1] && i in t[k2];
      }
    }
  }

  /** `unsubscribe` removes the id wherever it is, and nothing else. */
  lemma DropSubExact(t: Table, id: SubId)
    ensures UniqueIds(t) ==> UniqueIds(DropSub(t, id))
    ensures !Lives(DropSub(t, id), id)
    ensures !Lives(t, id) ==> DropSub(t, id) == t
    ensures forall k, i | k in t && i in t[k] && i != id ::
              k in DropSub(t, id) && i in DropSub(t, id)[k] && DropSub(t, id)[k][i] == t[k][i]
  {
    if !Lives(t, id) {
      forall k | k in t ensures t[k] - {id} == t[k] {
        assert id !in t[k];
      }
    }
  }

  /**
    One `unsubscribeAll` removes exactly one subscription of the channel under every key that
    holds one, and touches no subscription of another channel.
   */
  lemma UnsubscribeAllOnePerKey(t: Table, conn: ConnId, t': Table, k: Key)
    requires AfterUnsubscribeAll(t, conn, t') && k in t
    ensures k in t'
    ensures |OfConn(t'[k], conn)| == if OfConn(t[k], conn) == {} then 0 else |OfConn(t[k], conn)| - 1
    ensures forall id | id in t[k] && t[k][id].conn != conn :: id in t'[k] && t'[k][id] == t[k][id]
    ensures forall id | id in t'[k] :: id in t[k] && t'[k][id] == t[k][id]
    ensures t'.Keys == t.Keys
  {
    var v :| IsVictims(t, conn, v) && t' == DropVictims(t, v);
    if k in v {
      assert OfConn(t'[k], conn) == OfConn(t[k], conn) - {v[k]};
    } else {
      assert t'[k] == t[k];
    }
  }

  /** A run of `unsubscribeAll` calls for one channel, with nothing subscribing in between. */
  ghost predicate UnsubscribeAllRun(ts: seq<Table>, conn: ConnId) {
    ts != [] && forall i | 0 <= i < |ts| - 1 :: AfterUnsubscribeAll(ts[i], conn, ts[i + 1])
  }

  /** After n calls a key keeps max(0, m - n) of the m subscriptions the channel had there. */
  lemma {:induction false} RunLeaves(ts: seq<Table>, conn: ConnId, k: Key)
    requires UnsubscribeAllRun(ts, conn) && k in ts[0]
    ensures k in ts[|ts| - 1] && ts[|ts| - 1].Keys == ts[0].Keys
    ensures
      var m, n := |OfConn(ts[0][k], conn)|, |ts| - 1;
      |OfConn(ts[|ts| - 1][k], conn)| == if m <= n then 0 else m - n
    decreases |ts|
  {
    if |ts| > 1 {
      var front := ts[..|ts| - 1];
      RunLeaves(front, conn, k);
      assert AfterUnsubscribeAll(ts[|ts| - 2], conn, ts[|ts| - 1]);
      UnsubscribeAllOnePerKey(ts[|ts| - 2], conn, ts[|ts| - 1], k);
    }
  }

  ghost predicate AtMostPerKey(t: Table, conn: ConnId, n: nat) {
    forall k | k in t :: |OfConn(t[k], conn)| <= n
  }

  /** n calls clear a channel if and only if it has at most n subscriptions under every key. */
  lemma UnsubscribeAllClears(ts: seq<Table>, conn: ConnId)
    requires UnsubscribeAllRun(ts, conn)
    ensures AtMostPerKey(ts[|ts| - 1], conn, 0) <==> AtMostPerKey(ts[0], conn, |ts| - 1)
  {
    var last := ts[|ts| - 1];
    if exists k :: k in ts[0] {
      var k :| k in ts[0];
      RunLeaves(ts, conn, k);
    } else {
      RunEmpty(ts, conn);
    }
    forall k | k in ts[0]
      ensures k in last && (|OfConn(last[k], conn)| <= 0 <==> |OfConn(ts[0][k], conn)| <= |ts| - 1)
    {
      RunLeaves(ts, conn, k);
    }
  }

  lemma {:induction false} RunEmpty(ts: seq<Table>, conn: ConnId)
    requires UnsubscribeAllRun(ts, conn) && ts[0] == map[]
    ensures ts[|ts| - 1] == map[]
    decreases |ts|
  {
    if |ts| > 1 {
      RunEmpty(ts[..|ts| - 1], conn);
      assert AfterUnsubscribeAll(ts[|ts| - 2], conn, ts[|ts| - 1]);
    }
  }

  // ------------------------------------------------------------------ notifications

  /** The values notified to one subscription, in order. */
  function Values(items: seq<Item>, id: SubId): seq<Json> {
    if items == [] then []
    else
      var last := items[|items| - 1];
      Values(items[..|items| - 1], id) + (if last.id == id then [last.value] else [])
  }

  lemma ValuesAppend(items: seq<Item>, x: Item, id: SubId)
    ensures Values(items + [x], id) == Values(items, id) + (if x.id == id then [x.value] else [])
  {
    assert (items + [x])[..|items|] == items;
  }

  /** `order` visits every id of `ids` exactly once. */
  ghost predicate Visits(order: seq<SubId>, ids: set<SubId>) {
    && (forall id :: id in order <==> id in ids)
    && (forall i, j | 0 <= i < j < |order| :: order[i] != order[j])
  }

  /** One item per visited subscription, on the channel it subscribed from. */
  function Notes(order: seq<SubId>, subs: Subs, datatyp: string, value: Json): (items: seq<Item>)
    requires forall id | id in order :: id in subs
    ensures |items| == |order|
    ensures forall i | 0 <= i < |order| :: items[i] == Item(order[i], subs[order[i]], datatyp, value)
  {
    if order == [] then []
    else
      var n := |order| - 1;
      Notes(order[..n], subs, datatyp, value) + [Item(order[n], subs[order[n]], datatyp, value)]
  }

  lemma VisitsFront(order: seq<SubId>, ids: set<SubId>)
    requires Visits(order, ids) && order != []
    ensures Visits(order[..|order| - 1], ids - {order[|order| - 1]}) && order[|order| - 1] in ids
  {
    var n := |order| - 1;
    assert order == order[..n] + [order[n]];
    forall i ensures i in order[..n] <==> i in ids - {order[n]} {
      assert i in order <==> i in order[..n] || i == order[n];
    }
  }

  /** One more subscription visited. */
  lemma {:induction false} NotesStep(
      order: seq<SubId>, todo: set<SubId>, subs: Subs, datatyp: string, value: Json, id: SubId)
    requires todo <= subs.Keys && Visits(order, subs.Keys - todo) && id in todo
    ensures Visits(order + [id], subs.Keys - (todo - {id}))
    ensures Notes(order + [id], subs, datatyp, value) ==
              Notes(order, subs, datatyp, value) + [Item(id, subs[id], datatyp, value)]
  {
    assert (order + [id])[..|order|] == order;
  }

  /** A publication notifies every subscription of its key once, and nobody else. */
  lemma {:induction false} NotesReachEach(
      order: seq<SubId>, ids: set<SubId>, subs: Subs, datatyp: string, value: Json, id: SubId)
    requires Visits(order, ids) && ids <= subs.Keys
    ensures Values(Notes(order, subs, datatyp, value), id) == if id in ids then [value] else []
    decreases |order|
  {
    if order != [] {
      var n := |order| - 1;
      var front, last := order[..n], order[n];
      VisitsFront(order, ids);
      NotesReachEach(front, ids - {last}, subs, datatyp, value, id);
      ValuesAppend(Notes(front, subs, datatyp, value), Item(last, subs[last], datatyp, value), id);
    }
  }

  /** `b'` is `b` with one item appended for each subscription in `subs`, in some order. */
  ghost predicate Notified(b: seq<Item>, b': seq<Item>, subs: Subs, datatyp: string, value: Json) {
    exists order: seq<SubId> :: Visits(order, subs.Keys) && b' == b + Notes(order, subs, datatyp, value)
  }

  lemma NotifiedNobody(b: seq<Item>, datatyp: string, value: Json)
    ensures Notified(b, b, map[], datatyp, value)
  {
    var none: Subs := map[];
    assert Visits([], none.Keys) && b == b + Notes([], none, datatyp, value);
  }

  // ------------------------------------------------------------------ imperative form

  datatype SubscribeResult = Subscribed(id: SubId) | PathNotFound | NotReadable | NoPermission

  class SubscriptionHandler {
    var subscriptions: Table
    var buffer: seq<Item>
    ghost var enqueued: seq<Item>
    ghost var popped: seq<Item>

    /** Conservation: what was enqueued is what was popped, followed by what is buffered. */
    ghost predicate Valid()
      reads this
    {
      UniqueIds(subscriptions) && enqueued == popped + buffer
    }

    constructor ()
      ensures Valid() && subscriptions == map[] && buffer == []
    {
      subscriptions, buffer, enqueued, popped := map[], [], [], [];
    }

    /**
      The three gates, each with its own error, then the entry under the slash spelling of the
      path.  `id` is the freshly generated random id, `permissions` are those of the channel.
     */
    method Subscribe(
        db: Database.Db, permissions: Access.Permissions, path: string, attr: string, chan: Channel, id: SubId)
      returns (r: SubscribeResult)
      requires Valid() && !Lives(subscriptions, id)
      modifies this`subscriptions
      ensures Valid()
      ensures
        var p := VssPath.FromVSS(path);
        && (r == PathNotFound <==> !Database.Exists(db, p.vss))
        && (r == NotReadable <==> Database.Exists(db, p.vss) && !Database.IsReadable(db, p.vss))
        && (r == NoPermission <==> Database.IsReadable(db, p.vss) && !Access.Granted(permissions, p.gen1, "r"))
        && (r == Subscribed(id) <==> Database.IsReadable(db, p.vss) && Access.Granted(permissions, p.gen1, "r"))
        && subscriptions == if r.Subscribed? then AddSub(old(subscriptions), Key(p.vss, attr), id, chan)
                            else old(subscriptions)
    {
      var p := VssPath.FromVSS(path);
      if !Database.Exists(db, p.vss) {
        return PathNotFound;
      } else if !Database.IsReadable(db, p.vss) {
        return NotReadable;
      }
      var permitted := Access.CheckSignalAccess(permissions, p.gen1, "r");
      if !permitted {
        return NoPermission;
      }
      Database.ReadableExists(db, p.vss);
      Enter(Key(p.vss, attr), id, chan);
      return Subscribed(id);
    }

    /** The insertion into the map of maps, which creates a missing inner map. */
    method Enter(key: Key, id: SubId, chan: Channel)
      requires Valid() && !Lives(subscriptions, id)
      modifies this`subscriptions
      ensures Valid() && subscriptions == AddSub(old(subscriptions), key, id, chan)
    {
      AddKeepsUnique(subscriptions, key, id, chan);
      if key !in subscriptions {
        subscriptions := subscriptions[key := map[]];
      }
      subscriptions := subscriptions[key := subscriptions[key][id := chan]];
    }

    method Unsubscribe(id: SubId) returns (r: int)
      requires Valid()
      modifies this`subscriptions
      ensures Valid() && subscriptions == DropSub(old(subscriptions), id)
      ensures r == 0 <==> old(Lives(subscriptions, id))
      ensures r == 0 || r == -1
    {
      ghost var t := subscriptions;
      var found := false;
      var todo := subscriptions.Keys;
      while todo != {}
        invariant todo <= t.Keys && subscriptions.Keys == t.Keys
        invariant forall k | k in t :: subscriptions[k] == if k in todo then t[k] else t[k] - {id}
        invariant found ==> Lives(t, id)
        invariant !found ==> forall k | k in t && k !in todo :: id !in t[k]
        decreases todo
      {
        var k :| k in todo;
        if id in subscriptions[k] {
          assert Lives(t, id);
          subscriptions := subscriptions[k := subscriptions[k] - {id}];
          found := true;
        } else {
          assert t[k] - {id} == t[k];
        }
        todo := todo - {k};
      }
      assert subscriptions == DropSub(t, id);
      DropSubExact(t, id);
      r := if found then 0 else -1;
    }

    /** The `find_if` of the loop body: some match of the channel, the first in hash order. */
    method FindChannel(m: Subs, conn: ConnId) returns (found: bool, id: SubId)
      ensures found <==> OfConn(m, conn) != {}
      ensures found ==> id in OfConn(m, conn)
    {
      var todo := m.Keys;
      id := Uuid(0);
      while todo != {}
        invariant todo <= m.Keys
        invariant forall i | i in m && i !in todo :: m[i].conn != conn
        decreases todo
      {
        id :| id in todo;
        if m[id].conn == conn {
          assert id in OfConn(m, conn);
          return true, id;
        }
        todo := todo - {id};
      }
      found := false;
    }

    method UnsubscribeAll(conn: ConnId)
      requires Valid()
      modifies this`subscriptions
      ensures Valid() && AfterUnsubscribeAll(old(subscriptions), conn, subscriptions)
    {
      ghost var t := subscriptions;
      ghost var v: map<Key, SubId> := map[];
      var todo := subscriptions.Keys;
      while todo != {}
        invariant todo <= t.Keys && PartVictims(t, conn, v, todo)
        invariant subscriptions == DropVictims(t, v)
        decreases todo
      {
        var k :| k in todo;
        assert subscriptions[k] == t[k];
        var found, id := FindChannel(subscriptions[k], conn);
        VictimStep(t, conn, v, todo, k, found, id);
        if found {
          subscriptions := subscriptions[k := subscriptions[k] - {id}];
          v := v[k := id];
        }
        todo := todo - {k};
      }
      PartVictimsDone(t, conn, v);
    }

    /** Enqueues one item per subscription stored under the key, and none for any other. */
    method Publish(key: Key, datatyp: string, value: Json)
      requires Valid()
      modifies this`buffer, this`enqueued
      ensures Valid()
      ensures Notified(old(buffer), buffer, SubsAt(subscriptions, key), datatyp, value)
    {
      if key !in subscriptions {
        NotifiedNobody(buffer, datatyp, value);
        return;
      }
      var subs := subscriptions[key];
      var todo := subs.Keys;
      ghost var order: seq<SubId> := [];
      while todo != {}
        invariant todo <= subs.Keys && Visits(order, subs.Keys - todo)
        invariant buffer == old(buffer) + Notes(order, subs, datatyp, value)
        invariant enqueued == popped + buffer
        decreases todo
      {
        var id :| id in todo;
        buffer := buffer + [Item(id, subs[id], datatyp, value)];
        enqueued := enqueued + [Item(id, subs[id], datatyp, value)];
        NotesStep(order, todo, subs, datatyp, value, id);
        todo := todo - {id};
        order := order + [id];
      }
      assert subs.Keys - todo == subs.Keys;
    }

    /** The worker's front/pop, which it runs only after it saw a non-empty buffer. */
    method PopFront() returns (item: Item)
      requires Valid() && buffer != []
      modifies this`buffer, this`popped
      ensures Valid() && [item] + buffer == old(buffer) && popped == old(popped) + [item]
    {
      item := buffer[0];
      buffer := buffer[1..];
      popped := popped + [item];
    }
  }
}
