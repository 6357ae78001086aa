/**
 * The room protocol between the host and its clients: the host keeps the
 * roster and a liveness table, clients mirror the roster the host sends.
 *
 * The transport is abstract. A connection is a peer id whose channel is
 * open or closed, whatever is sent is appended to `outbox`, and every
 * callback the component fires is appended to `events`. A JavaScript Map
 * remembers insertion order and its `forEach` follows it, so the
 * connection and roster maps are OrderedMaps (keys in insertion order).
 * Timers, the clock and randomness are parameters of explicit steps.
 */
module Network {
  import opened Common

  type PeerId = string

  const HeartbeatInterval := 5000
  const HeartbeatTimeout := 15000

  /** Room codes are drawn from the capitals without I and O. */
  const RoomCodeAlphabet := "ABCDEFGHJKLMNPQRSTUVWXYZ"
  const RoomCodeLength := 4
  const PeerIdPrefix := "panic-typer-"

  // Message types
  const GameStateMsg := "GAME_STATE"
  const InputMsg := "INPUT"
  const SabotageMsg := "SABOTAGE"
  const PlayerJoinMsg := "PLAYER_JOIN"
  const PlayerLeaveMsg := "PLAYER_LEAVE"
  const PlayerListMsg := "PLAYER_LIST"
  const PingMsg := "PING"
  const PongMsg := "PONG"
  const StartGameMsg := "START_GAME"
  const ErrorMsg := "ERROR"

  datatype ConnectionState = Disconnected | Connecting | Connected | Error

  /** What the roster stores for a peer. */
  datatype PeerInfo = PeerInfo(name: string, isHost: bool)

  /** The payload shapes the protocol exchanges; `AppData` stands for any
      application payload (game state, input, sabotage), passed through. */
  datatype Payload =
    | NoPayload
    | Stamp(timestamp: Option<int>)
    | Named(name: string)
    | PeerRef(id: PeerId, name: string)
    | Roster(players: seq<RosterEntry>)
    | AppData(body: string)

  /** A packet as createPacket builds it (its wall-clock stamp left out). */
  datatype Packet = Packet(msgType: string, payload: Payload, sender: Option<PeerId>)

  /** One packet handed to the channel of a peer. */
  datatype Outgoing = Outgoing(to: PeerId, packet: Packet)

  /** The callbacks the component fires, in order. */
  datatype Event =
    | StateChanged(state: ConnectionState)
    | PlayerJoined(id: PeerId, name: string)
    | PlayerLeft(id: PeerId, name: string)
    | Delivered(msgType: string, payload: Payload, from: PeerId)
    | RosterUpdated(entries: seq<RosterEntry>)
    | ErrorRaised(message: string)
    | RoomCreated(code: Option<string>)
    | JoinedRoom(code: Option<string>)

  // ---------------------------------------------------------------------
  // Room codes and peer ids
  // ---------------------------------------------------------------------

  predicate IsRoomCode(code: string)
  {
    |code| == RoomCodeLength && forall i :: 0 <= i < |code| ==> code[i] in RoomCodeAlphabet
  }

  /** generateRoomCode: draw i takes the character at index picks[i]. */
  method GenerateRoomCode(picks: seq<nat>) returns (code: string)
    requires |picks| == RoomCodeLength
    requires forall i :: 0 <= i < |picks| ==> picks[i] < |RoomCodeAlphabet|
    ensures IsRoomCode(code)
    ensures forall i :: 0 <= i < |code| ==> code[i] == RoomCodeAlphabet[picks[i]]
  {
    code := "";
    var i := 0;
    while i < RoomCodeLength
      invariant 0 <= i <= RoomCodeLength && |code| == i
      invariant forall k :: 0 <= k < i ==> code[k] == RoomCodeAlphabet[picks[k]]
    {
      code := code + [RoomCodeAlphabet[picks[i]]];
      i := i + 1;
    }
  }

  /** A room code is four capitals, none of them I or O. */
  lemma RoomCodeLetters(code: string)
    requires IsRoomCode(code)
    ensures |code| == 4
    ensures forall i :: 0 <= i < |code| ==> IsUpperLetter(code[i]) && code[i] != 'I' && code[i] != 'O'
  {
    forall i | 0 <= i < |code|
      ensures IsUpperLetter(code[i]) && code[i] != 'I' && code[i] != 'O'
    {
      var c := code[i];
      assert c in RoomCodeAlphabet;
    }
  }

  /** The peer id a room is hosted under. */
  function RoomCodeToPeerId(code: string): (id: PeerId)
    ensures |id| == |PeerIdPrefix| + |code|
  {
    PeerIdPrefix + Lower(code)
  }

  lemma PeerIdSuffix(code: string)
    ensures RoomCodeToPeerId(code)[|PeerIdPrefix|..] == Lower(code)
  {
  }

  /** A join (which upper-cases what was typed) reaches a room exactly when
      the typed code equals the room's code up to case. */
  lemma JoinReachesHost(typed: string, code: string)
    ensures RoomCodeToPeerId(Upper(typed)) == RoomCodeToPeerId(code) <==> Lower(typed) == Lower(code)
  {
    LowerOfUpper(typed);
    PeerIdSuffix(Upper(typed));
    PeerIdSuffix(code);
  }

  /** Different rooms are hosted under different peer ids. */
  lemma DistinctRoomsDistinctPeers(a: string, b: string)
    requires IsRoomCode(a) && IsRoomCode(b) && a != b
    ensures RoomCodeToPeerId(a) != RoomCodeToPeerId(b)
  {
    RoomCodeLetters(a);
    RoomCodeLetters(b);
    PeerIdSuffix(a);
    PeerIdSuffix(b);
    if Lower(a) == Lower(b) {
      LowerInjectiveOnCapitals(a, b);
    }
  }

  // ---------------------------------------------------------------------
  // Insertion-ordered maps
  // ---------------------------------------------------------------------

  /** A Map: its keys in insertion order, and the value of each key. */
  datatype OrderedMap<V> = OrderedMap(keys: seq<PeerId>, values: map<PeerId, V>)

  ghost predicate Distinct(s: seq<PeerId>)
  {
    forall i, j :: 0 <= i < j < |s| ==> s[i] != s[j]
  }

  /** The order lists every key once, and nothing else. */
  ghost predicate WellOrdered<V>(m: OrderedMap<V>)
  {
    Distinct(m.keys) && forall k :: k in m.values <==> k in m.keys
  }

  function EmptyMap<V>(): (r: OrderedMap<V>)
    ensures WellOrdered(r) && r.values == map[]
  {
    OrderedMap([], map[])
  }

  /** `s` without the occurrences of `k`, in the same order. */
  function Without(s: seq<PeerId>, k: PeerId): (r: seq<PeerId>)
    ensures |r| <= |s|
    ensures forall x :: x in r <==> x in s && x != k
  {
    if s == [] then [] else (if s[0] == k then [] else [s[0]]) + Without(s[1..], k)
  }

  lemma {:induction false} WithoutDistinct(s: seq<PeerId>, k: PeerId)
    ensures Distinct(s) ==> Distinct(Without(s, k))
  {
    if s != [] && Distinct(s) {
      assert Distinct(s[1..]);
      WithoutDistinct(s[1..], k);
      var rest := Without(s[1..], k);
      if s[0] != k {
        assert s[0] !in s[1..];
        assert s[0] !in rest;
        forall i, j | 0 <= i < j < |[s[0]] + rest|
          ensures ([s[0]] + rest)[i] != ([s[0]] + rest)[j]
        {
          if i == 0 {
            assert ([s[0]] + rest)[j] == rest[j - 1];
          }
        }
      }
    }
  }

  lemma {:induction false} WithoutTwice(s: seq<PeerId>, k: PeerId)
    ensures Without(Without(s, k), k) == Without(s, k)
  {
    if s != [] {
      WithoutTwice(s[1..], k);
      var rest := Without(s[1..], k);
      if s[0] != k {
        var once := [s[0]] + rest;
        assert once[0] == s[0] && once[1..] == rest;
      } else {
        assert Without(s, k) == rest;
      }
    }
  }

  /** `map.set(k, v)`: a new key goes last, an existing key keeps its place. */
  function Put<V>(m: OrderedMap<V>, k: PeerId, v: V): (r: OrderedMap<V>)
    ensures r.values == m.values[k := v]
    ensures WellOrdered(m) ==> WellOrdered(r)
  {
    if k in m.values then OrderedMap(m.keys, m.values[k := v])
    else
      assert WellOrdered(m) ==> k !in m.keys;
      OrderedMap(m.keys + [k], m.values[k := v])
  }

  /** `map.delete(k)`. */
  function Remove<V>(m: OrderedMap<V>, k: PeerId): (r: OrderedMap<V>)
    ensures r.values == m.values - {k}
    ensures WellOrdered(m) ==> WellOrdered(r)
  {
    WithoutDistinct(m.keys, k);
    OrderedMap(Without(m.keys, k), m.values - {k})
  }

  /** Deleting a key that is gone already changes nothing. */
  lemma RemoveTwice<V>(m: OrderedMap<V>, k: PeerId)
    ensures Remove(Remove(m, k), k) == Remove(m, k)
  {
    WithoutTwice(m.keys, k);
    assert m.values - {k} - {k} == m.values - {k};
  }

  // ---------------------------------------------------------------------
  // Rosters
  // ---------------------------------------------------------------------

  function EntryOf(id: PeerId, info: PeerInfo): RosterEntry
  {
    RosterEntry(id, info.name, info.isHost)
  }

  /** `Array.from(players.entries())` as `{id, ...info}` records. */
  function Entries(m: OrderedMap<PeerInfo>): (r: seq<RosterEntry>)
    requires WellOrdered(m)
    ensures |r| == |m.keys|
    ensures forall i :: 0 <= i < |r| ==> r[i] == EntryOf(m.keys[i], m.values[m.keys[i]])
  {
    seq(|m.keys|, i requires 0 <= i < |m.keys| => EntryOf(m.keys[i], m.values[m.keys[i]]))
  }

  /** `players.clear()` followed by `set(p.id, {name, isHost})` for each
      listed p, in order. */
  function FromRoster(list: seq<RosterEntry>): (r: OrderedMap<PeerInfo>)
    ensures WellOrdered(r)
  {
    if list == [] then EmptyMap()
    else
      var last := list[|list| - 1];
      Put(FromRoster(list[..|list| - 1]), last.id, PeerInfo(last.name, last.isHost))
  }

  /** The rebuilt roster holds exactly the listed ids: nothing is kept
      from before, nothing is merged in. */
  lemma {:induction false} FromRosterIds(list: seq<RosterEntry>)
    ensures forall k :: k in FromRoster(list).values <==> exists i :: 0 <= i < |list| && list[i].id == k
  {
    if list != [] {
      var n := |list| - 1;
      FromRosterIds(list[..n]);
      forall k | k in FromRoster(list).values
        ensures exists i :: 0 <= i < |list| && list[i].id == k
      {
        if k != list[n].id {
          var i :| 0 <= i < n && list[..n][i].id == k;
          assert list[i].id == k;
        }
      }
      forall k | exists i :: 0 <= i < |list| && list[i].id == k
        ensures k in FromRoster(list).values
      {
        var i :| 0 <= i < |list| && list[i].id == k;
        if i < n {
          assert list[..n][i].id == k;
        }
      }
    }
  }

  /** The entries of a map whose last key is dropped are the entries of
      the map before that key was added. */
  lemma EntriesOfPrefix(m: OrderedMap<PeerInfo>, rest: OrderedMap<PeerInfo>)
    requires WellOrdered(m) && WellOrdered(rest) && |m.keys| > 0
    requires rest.keys == m.keys[..|m.keys| - 1]
    requires forall k :: k in rest.values ==> rest.values[k] == m.values[k]
    ensures Entries(m)[..|m.keys| - 1] == Entries(rest)
  {
    var n := |m.keys| - 1;
    forall i | 0 <= i < n ensures Entries(m)[i] == Entries(rest)[i] {
      assert rest.keys[i] == m.keys[i];
    }
  }

  /** Putting back the last key of a map, with its value, gives the map. */
  lemma PutLastBack(m: OrderedMap<PeerInfo>)
    requires WellOrdered(m) && |m.keys| > 0
    ensures var last := m.keys[|m.keys| - 1];
            var info := m.values[last];
            Put(OrderedMap(m.keys[..|m.keys| - 1], m.values - {last}), last,
                PeerInfo(info.name, info.isHost)) == m
  {
    var n := |m.keys|;
    var last := m.keys[n - 1];
    assert last !in m.keys[..n - 1];
    assert m.keys[..n - 1] + [last] == m.keys;
    assert (m.values - {last})[last := m.values[last]] == m.values;
  }

  /** Dropping the last key of a well-ordered map keeps it well ordered. */
  lemma DropLastOrdered(m: OrderedMap<PeerInfo>)
    requires WellOrdered(m) && |m.keys| > 0
    ensures var last := m.keys[|m.keys| - 1];
            WellOrdered(OrderedMap(m.keys[..|m.keys| - 1], m.values - {last}))
  {
    var n := |m.keys|;
    var last := m.keys[n - 1];
    assert last !in m.keys[..n - 1];
    assert forall k :: k in m.keys[..n - 1] ==> k in m.keys;
    assert forall k :: k in m.keys ==> k == last || k in m.keys[..n - 1];
  }

  /** A client that rebuilds its roster from the host's list gets the
      host's roster back, order included. */
  lemma {:induction false} RosterRoundTrip(m: OrderedMap<PeerInfo>)
    requires WellOrdered(m)
    ensures FromRoster(Entries(m)) == m
    decreases |m.keys|
  {
    var n := |m.keys|;
    if n == 0 {
      assert m.values == map[];
    } else {
      var last := m.keys[n - 1];
      var info := m.values[last];
      var rest := OrderedMap(m.keys[..n - 1], m.values - {last});
      DropLastOrdered(m);
      var list := Entries(m);
      EntriesOfPrefix(m, rest);
      RosterRoundTrip(rest);
      assert list[..n - 1] == Entries(rest);
      assert list[n - 1] == EntryOf(last, info);
      assert FromRoster(list) == Put(FromRoster(list[..n - 1]), last, PeerInfo(info.name, info.isHost));
      PutLastBack(m);
    }
  }

  /** An admitted player is in the list sent back to it. */
  lemma AdmittedIsListed(m: OrderedMap<PeerInfo>, p: PeerId, name: string)
    requires WellOrdered(m)
    ensures RosterEntry(p, name, false) in Entries(Put(m, p, PeerInfo(name, false)))
  {
    var r := Put(m, p, PeerInfo(name, false));
    var i :| 0 <= i < |r.keys| && r.keys[i] == p;
    assert Entries(r)[i] == RosterEntry(p, name, false);
  }

  // ---------------------------------------------------------------------
  // Sending
  // ---------------------------------------------------------------------

  predicate IsOpen(conns: OrderedMap<bool>, p: PeerId)
  {
    p in conns.values && conns.values[p]
  }

  /** send: the packet goes out when the channel exists and is open. */
  function SendTo(conns: OrderedMap<bool>, to: PeerId, packet: Packet): (out: seq<Outgoing>)
  {
    if IsOpen(conns, to) then [Outgoing(to, packet)] else []
  }

  /** The forEach of broadcast over the given keys. */
  function FanoutOver(keys: seq<PeerId>, conns: OrderedMap<bool>, packet: Packet,
                      exclude: Option<PeerId>): seq<Outgoing>
  {
    if keys == [] then []
    else (if Some(keys[0]) != exclude then SendTo(conns, keys[0], packet) else [])
         + FanoutOver(keys[1..], conns, packet, exclude)
  }

  /** broadcast: every connection in insertion order, but the excluded one. */
  function Fanout(conns: OrderedMap<bool>, packet: Packet, exclude: Option<PeerId>): seq<Outgoing>
  {
    FanoutOver(conns.keys, conns, packet, exclude)
  }

  function Targets(out: seq<Outgoing>): (r: seq<PeerId>)
    ensures |r| == |out|
    ensures forall i :: 0 <= i < |out| ==> r[i] == out[i].to
  {
    seq(|out|, i requires 0 <= i < |out| => out[i].to)
  }

  /** What fanout sends: the packet, to each open key but the excluded. */
  lemma {:induction false} FanoutOverSends(keys: seq<PeerId>, conns: OrderedMap<bool>, packet: Packet,
                                           exclude: Option<PeerId>)
    ensures forall o :: o in FanoutOver(keys, conns, packet, exclude) <==>
      o.to in keys && o.packet == packet && IsOpen(conns, o.to) && Some(o.to) != exclude
    ensures Distinct(keys) ==> Distinct(Targets(FanoutOver(keys, conns, packet, exclude)))
  {
    if keys != [] {
      FanoutOverSends(keys[1..], conns, packet, exclude);
      var head := if Some(keys[0]) != exclude then SendTo(conns, keys[0], packet) else [];
      var rest := FanoutOver(keys[1..], conns, packet, exclude);
      assert FanoutOver(keys, conns, packet, exclude) == head + rest;
      if Distinct(keys) {
        assert Distinct(keys[1..]);
        var all := Targets(head + rest);
        forall i, j | 0 <= i < j < |all| ensures all[i] != all[j] {
          if i < |head| {
            assert (head + rest)[j] == rest[j - |head|];
            assert (head + rest)[j] in rest;
            assert keys[0] !in keys[1..];
          } else {
            assert (head + rest)[i] == rest[i - |head|];
            assert (head + rest)[j] == rest[j - |head|];
            assert Targets(rest)[i - |head|] != Targets(rest)[j - |head|];
          }
        }
      }
    }
  }

  /** broadcast(type, payload, ex) reaches every open connection except ex,
      each exactly once, with the same packet. */
  lemma FanoutReaches(conns: OrderedMap<bool>, packet: Packet, exclude: Option<PeerId>)
    requires WellOrdered(conns)
    ensures forall o :: o in Fanout(conns, packet, exclude) <==>
      o.packet == packet && IsOpen(conns, o.to) && Some(o.to) != exclude
    ensures Distinct(Targets(Fanout(conns, packet, exclude)))
  {
    FanoutOverSends(conns.keys, conns, packet, exclude);
  }

  // ---------------------------------------------------------------------
  // Peers leaving and the heartbeat
  // ---------------------------------------------------------------------

  /** The three tables keyed by peer id. */
  datatype Tables = Tables(connections: OrderedMap<bool>, players: OrderedMap<PeerInfo>,
                           lastPongTime: map<PeerId, int>)

  ghost predicate TablesOk(t: Tables)
  {
    WellOrdered(t.connections) && WellOrdered(t.players)
  }

  /** What a step produced: the tables after it, what it sent, what it
      reported. */
  datatype Step = Step(tables: Tables, sent: seq<Outgoing>, emitted: seq<Event>)

  /** The deletions every peer makes when a peer goes away. */
  function Forget(t: Tables, p: PeerId): (r: Tables)
    ensures r.connections.values == t.connections.values - {p}
    ensures r.players.values == t.players.values - {p}
    ensures r.lastPongTime == t.lastPongTime - {p}
    ensures TablesOk(t) ==> TablesOk(r)
  {
    Tables(Remove(t.connections, p), Remove(t.players, p), t.lastPongTime - {p})
  }

  /** handleDisconnection on the host: forget p, and when p was in the
      roster tell everyone left and report it. */
  function HostDrop(t: Tables, p: PeerId, sender: Option<PeerId>): Step
  {
    var rest := Forget(t, p);
    if p in t.players.values then
      var name := t.players.values[p].name;
      Step(rest, Fanout(rest.connections, Packet(PlayerLeaveMsg, PeerRef(p, name), sender), None),
           [PlayerLeft(p, name)])
    else Step(rest, [], [])
  }

  /** The host reports a departure only for a roster member, and then
      tells every other open channel, once each, never the one who left. */
  lemma HostDropNotifies(t: Tables, p: PeerId, sender: Option<PeerId>)
    requires WellOrdered(t.connections)
    ensures p !in t.players.values ==> HostDrop(t, p, sender).sent == [] && HostDrop(t, p, sender).emitted == []
    ensures p in t.players.values ==>
      var name := t.players.values[p].name;
      var s := HostDrop(t, p, sender);
      && s.emitted == [PlayerLeft(p, name)]
      && Distinct(Targets(s.sent))
      && forall o :: o in s.sent <==>
           o.packet == Packet(PlayerLeaveMsg, PeerRef(p, name), sender) && IsOpen(t.connections, o.to) && o.to != p
  {
    var rest := Forget(t, p);
    if p in t.players.values {
      var name := t.players.values[p].name;
      FanoutReaches(rest.connections, Packet(PlayerLeaveMsg, PeerRef(p, name), sender), None);
    }
  }

  /** A peer already gone changes nothing when dropped again (the channel's
      close event arrives after the heartbeat has dropped it). */
  lemma HostDropIdempotent(t: Tables, p: PeerId, sender: Option<PeerId>)
    ensures var once := HostDrop(t, p, sender).tables;
            HostDrop(once, p, sender) == Step(once, [], [])
  {
    var once := Forget(t, p);
    assert HostDrop(t, p, sender).tables == once;
    RemoveTwice(t.connections, p);
    RemoveTwice(t.players, p);
    assert once.lastPongTime - {p} == once.lastPongTime;
    assert Forget(once, p) == once;
  }

  /** `now - (lastPongTime.get(p) || 0) > HEARTBEAT_TIMEOUT`. */
  predicate Stale(lastPong: map<PeerId, int>, p: PeerId, now: int)
  {
    now - (if p in lastPong then lastPong[p] else 0) > HeartbeatTimeout
  }

  function PingPacket(now: int, sender: Option<PeerId>): Packet
  {
    Packet(PingMsg, Stamp(Some(now)), sender)
  }

  /** What the host's sweep does to a key after pinging it. */
  function DropIfStale(t: Tables, p: PeerId, now: int, sender: Option<PeerId>, evicting: bool): Step
  {
    if evicting && Stale(t.lastPongTime, p, now) then HostDrop(t, p, sender) else Step(t, [], [])
  }

  /** One heartbeat over the given keys: PING each, and when evicting (on
      the host) drop each stale one right after its PING. */
  function SweepOver(t: Tables, keys: seq<PeerId>, now: int, sender: Option<PeerId>, evicting: bool): Step
    decreases |keys|
  {
    if keys == [] then Step(t, [], [])
    else
      var p := keys[0];
      var ping := SendTo(t.connections, p, PingPacket(now, sender));
      var drop := DropIfStale(t, p, now, sender, evicting);
      var rest := SweepOver(drop.tables, keys[1..], now, sender, evicting);
      Step(rest.tables, ping + drop.sent + rest.sent, drop.emitted + rest.emitted)
  }

  /** Whether the host's sweep over `keys` drops `k`. */
  predicate Evicted(lastPong: map<PeerId, int>, keys: seq<PeerId>, now: int, evicting: bool, k: PeerId)
  {
    evicting && k in keys && Stale(lastPong, k, now)
  }

  /** The tables `tables` leaves of `t`: `k` remains iff it was there
      and is not evicted. */
  ghost predicate KeepsUnevicted(t: Tables, r: Tables, keys: seq<PeerId>, now: int, evicting: bool)
  {
    && (forall k :: k in r.connections.values <==>
          k in t.connections.values && !Evicted(t.lastPongTime, keys, now, evicting, k))
    && (forall k :: k in r.players.values <==>
          k in t.players.values && !Evicted(t.lastPongTime, keys, now, evicting, k))
    && (forall k :: k in r.lastPongTime <==>
          k in t.lastPongTime && !Evicted(t.lastPongTime, keys, now, evicting, k))
  }

  lemma DropIfStaleKeeps(t: Tables, p: PeerId, now: int, sender: Option<PeerId>, evicting: bool)
    ensures KeepsUnevicted(t, DropIfStale(t, p, now, sender, evicting).tables, [p], now, evicting)
    ensures forall k :: k != p ==>
      (k in DropIfStale(t, p, now, sender, evicting).tables.lastPongTime ==>
         DropIfStale(t, p, now, sender, evicting).tables.lastPongTime[k] == t.lastPongTime[k])
  {
  }

  /** Exactly the stale keys leave all three tables (and only on the host). */
  lemma {:induction false} SweepEvictsStale(t: Tables, keys: seq<PeerId>, now: int,
                                            sender: Option<PeerId>, evicting: bool)
    requires Distinct(keys)
    ensures KeepsUnevicted(t, SweepOver(t, keys, now, sender, evicting).tables, keys, now, evicting)
    decreases |keys|
  {
    if keys != [] {
      var p := keys[0];
      var drop := DropIfStale(t, p, now, sender, evicting);
      assert Distinct(keys[1..]);
      assert p !in keys[1..];
      SweepEvictsStale(drop.tables, keys[1..], now, sender, evicting);
      DropIfStaleKeeps(t, p, now, sender, evicting);
      var r := SweepOver(t, keys, now, sender, evicting).tables;
      assert r == SweepOver(drop.tables, keys[1..], now, sender, evicting).tables;
      forall k
        ensures (k in r.connections.values <==>
                   k in t.connections.values && !Evicted(t.lastPongTime, keys, now, evicting, k))
        ensures (k in r.players.values <==>
                   k in t.players.values && !Evicted(t.lastPongTime, keys, now, evicting, k))
        ensures (k in r.lastPongTime <==>
                   k in t.lastPongTime && !Evicted(t.lastPongTime, keys, now, evicting, k))
      {
        if k != p {
          assert Evicted(drop.tables.lastPongTime, keys[1..], now, evicting, k)
              == Evicted(t.lastPongTime, keys, now, evicting, k);
        }
      }
    }
  }

  /** The PING recipients of a batch of sends, in order. */
  function PingTargets(out: seq<Outgoing>): (r: seq<PeerId>)
    ensures |r| <= |out|
  {
    if out == [] then []
    else (if out[0].packet.msgType == PingMsg then [out[0].to] else []) + PingTargets(out[1..])
  }

  lemma {:induction false} PingTargetsAppend(a: seq<Outgoing>, b: seq<Outgoing>)
    ensures PingTargets(a + b) == PingTargets(a) + PingTargets(b)
  {
    if a != [] {
      assert (a + b)[0] == a[0];
      assert (a + b)[1..] == a[1..] + b;
      PingTargetsAppend(a[1..], b);
    } else {
      assert a + b == b;
    }
  }

  lemma {:induction false} FanoutWithoutPings(keys: seq<PeerId>, conns: OrderedMap<bool>, packet: Packet,
                                              exclude: Option<PeerId>)
    requires packet.msgType != PingMsg
    ensures PingTargets(FanoutOver(keys, conns, packet, exclude)) == []
  {
    if keys != [] {
      FanoutWithoutPings(keys[1..], conns, packet, exclude);
      var head := if Some(keys[0]) != exclude then SendTo(conns, keys[0], packet) else [];
      PingTargetsAppend(head, FanoutOver(keys[1..], conns, packet, exclude));
    }
  }

  /** The keys whose channel is open, in order. */
  function OpenAmong(conns: OrderedMap<bool>, keys: seq<PeerId>): (r: seq<PeerId>)
    ensures forall k :: k in r <==> k in keys && IsOpen(conns, k)
  {
    if keys == [] then [] else (if IsOpen(conns, keys[0]) then [keys[0]] else []) + OpenAmong(conns, keys[1..])
  }

  lemma {:induction false} OpenAmongAgrees(a: OrderedMap<bool>, b: OrderedMap<bool>, keys: seq<PeerId>)
    requires forall k :: k in keys ==> IsOpen(a, k) == IsOpen(b, k)
    ensures OpenAmong(a, keys) == OpenAmong(b, keys)
  {
    if keys != [] {
      OpenAmongAgrees(a, b, keys[1..]);
    }
  }

  /** Dropping a stale peer sends no PING and leaves every other channel
      as it was. */
  lemma DropIfStaleQuiet(t: Tables, p: PeerId, now: int, sender: Option<PeerId>, evicting: bool)
    ensures PingTargets(DropIfStale(t, p, now, sender, evicting).sent) == []
    ensures forall k :: k != p ==>
      IsOpen(DropIfStale(t, p, now, sender, evicting).tables.connections, k) == IsOpen(t.connections, k)
  {
    if evicting && Stale(t.lastPongTime, p, now) && p in t.players.values {
      var rc := Forget(t, p).connections;
      FanoutWithoutPings(rc.keys, rc, Packet(PlayerLeaveMsg, PeerRef(p, t.players.values[p].name), sender), None);
    }
  }

  /** Every open channel gets exactly one PING per sweep, in key order. */
  lemma {:induction false} SweepPingsEachOpenOnce(t: Tables, keys: seq<PeerId>, now: int,
                                                  sender: Option<PeerId>, evicting: bool)
    requires Distinct(keys)
    ensures PingTargets(SweepOver(t, keys, now, sender, evicting).sent) == OpenAmong(t.connections, keys)
    decreases |keys|
  {
    if keys != [] {
      var p := keys[0];
      var ping := SendTo(t.connections, p, PingPacket(now, sender));
      var drop := DropIfStale(t, p, now, sender, evicting);
      var rest := SweepOver(drop.tables, keys[1..], now, sender, evicting);
      assert Distinct(keys[1..]);
      assert p !in keys[1..];
      SweepPingsEachOpenOnce(drop.tables, keys[1..], now, sender, evicting);
      DropIfStaleQuiet(t, p, now, sender, evicting);
      OpenAmongAgrees(drop.tables.connections, t.connections, keys[1..]);
      PingTargetsAppend(ping, drop.sent);
      PingTargetsAppend(ping + drop.sent, rest.sent);
      assert PingTargets(ping) == (if IsOpen(t.connections, p) then [p] else []);
    }
  }

  /** The first step of a sweep, and the rest. */
  lemma SweepUnfold(t: Tables, keys: seq<PeerId>, now: int, sender: Option<PeerId>, evicting: bool)
    requires keys != []
    ensures var d := DropIfStale(t, keys[0], now, sender, evicting);
            var rest := SweepOver(d.tables, keys[1..], now, sender, evicting);
            var all := SweepOver(t, keys, now, sender, evicting);
      && all.tables == rest.tables
      && all.sent == SendTo(t.connections, keys[0], PingPacket(now, sender)) + d.sent + rest.sent
      && all.emitted == d.emitted + rest.emitted
  {
  }

  /** A client's sweep only pings. */
  lemma {:induction false} ClientSweepOnlyPings(t: Tables, keys: seq<PeerId>, now: int, sender: Option<PeerId>)
    ensures SweepOver(t, keys, now, sender, false).tables == t
    ensures SweepOver(t, keys, now, sender, false).emitted == []
    decreases |keys|
  {
    if keys != [] {
      ClientSweepOnlyPings(t, keys[1..], now, sender);
    }
  }

  /** What is left of a sweep after the work for the keys before `i`:
      the sweep over the rest completes the whole sweep `total`. */
  ghost predicate SweepRemains(t: Tables, keys: seq<PeerId>, i: nat, now: int, sender: Option<PeerId>, evicting: bool,
                               total: Step, out0: seq<Outgoing>, out: seq<Outgoing>, ev0: seq<Event>, ev: seq<Event>)
    requires i <= |keys|
  {
    var s := SweepOver(t, keys[i..], now, sender, evicting);
    && s.tables == total.tables && out0 + total.sent == out + s.sent && ev0 + total.emitted == ev + s.emitted
  }

  /** The heartbeat loop's step: after the work for key i, what is left of
      the sweep is the sweep over the keys after it. */
  lemma SweepAdvance(t: Tables, keys: seq<PeerId>, i: nat, now: int, sender: Option<PeerId>, evicting: bool,
                     total: Step, out0: seq<Outgoing>, out: seq<Outgoing>, ev0: seq<Event>, ev: seq<Event>,
                     t': Tables, out': seq<Outgoing>, ev': seq<Event>)
    requires i < |keys|
    requires SweepRemains(t, keys, i, now, sender, evicting, total, out0, out, ev0, ev)
    requires var d := DropIfStale(t, keys[i], now, sender, evicting);
      && t' == d.tables
      && out' == out + SendTo(t.connections, keys[i], PingPacket(now, sender)) + d.sent
      && ev' == ev + d.emitted
    ensures SweepRemains(t', keys, i + 1, now, sender, evicting, total, out0, out', ev0, ev')
  {
    var d := DropIfStale(t, keys[i], now, sender, evicting);
    var ping := SendTo(t.connections, keys[i], PingPacket(now, sender));
    SweepUnfold(t, keys[i..], now, sender, evicting);
    assert keys[i..][1..] == keys[i + 1..];
    var rest := SweepOver(d.tables, keys[i + 1..], now, sender, evicting);
    Regroup(out, ping, d.sent, rest.sent);
    Regroup3(ev, d.emitted, rest.emitted);
  }

  /** `data.payload?.timestamp`. */
  function TimestampOf(payload: Payload): Option<int>
  {
    if payload.Stamp? then payload.timestamp else None
  }

  lemma Regroup3<T>(a: seq<T>, b: seq<T>, c: seq<T>)
    ensures a + (b + c) == a + b + c
  {
  }

  lemma Regroup<T>(a: seq<T>, b: seq<T>, c: seq<T>, d: seq<T>)
    ensures a + (b + c + d) == a + b + c + d
  {
  }

  // ---------------------------------------------------------------------
  // The manager
  // ---------------------------------------------------------------------

  class NetworkManager {
    /** The id of this side's peer (`peer.id`), None when there is no peer. */
    var ownId: Option<PeerId>
    var roomCode: Option<string>
    var isHost: bool
    /** Open channels by peer id; the flag is the channel's `open`. */
    var connections: OrderedMap<bool>
    var players: OrderedMap<PeerInfo>
    var lastPongTime: map<PeerId, int>
    var connectionState: ConnectionState
    var playerName: string
    /** Whether the heartbeat interval is scheduled. */
    var heartbeatRunning: bool
    /** Every packet handed to a channel, oldest first. */
    var outbox: seq<Outgoing>
    /** Every callback fired, oldest first. */
    var events: seq<Event>

    /** Both Maps list each of their keys once, in insertion order. */
    ghost predicate Valid()
      reads this`connections, this`players
    {
      WellOrdered(connections) && WellOrdered(players)
    }

    /** The `sender` field of the packets this side creates. */
    function Sender(): Option<PeerId>
      reads this`ownId
    {
      ownId
    }

    function CurrentTables(): Tables
      reads this`connections, this`players, this`lastPongTime
    {
      Tables(connections, players, lastPongTime)
    }

    constructor ()
      ensures Valid()
      ensures ownId == None && roomCode == None && !isHost
      ensures connections.values == map[] && players.values == map[] && lastPongTime == map[]
      ensures connectionState == Disconnected && playerName == "Player"
      ensures !heartbeatRunning && outbox == [] && events == []
    {
      ownId := None;
      roomCode := None;
      isHost := false;
      connections := EmptyMap();
      players := EmptyMap();
      lastPongTime := map[];
      connectionState := Disconnected;
      playerName := "Player";
      heartbeatRunning := false;
      outbox := [];
      events := [];
    }

    /** setConnectionState: the new state, reported. */
    method SetConnectionState(state: ConnectionState)
      modifies this`connectionState, this`events
      ensures connectionState == state
      ensures events == old(events) + [StateChanged(state)]
    {
      connectionState := state;
      events := events + [StateChanged(state)];
    }

    /** hostGame up to the peer's creation: a fresh room code (drawn by
        `picks`), and a peer registered under the room's id. */
    method HostGame(name: string, picks: seq<nat>) returns (code: string)
      requires |picks| == RoomCodeLength
      requires forall i :: 0 <= i < |picks| ==> picks[i] < |RoomCodeAlphabet|
      modifies this`playerName, this`isHost, this`roomCode, this`ownId, this`connectionState, this`events
      ensures IsRoomCode(code) && forall i :: 0 <= i < |code| ==> code[i] == RoomCodeAlphabet[picks[i]]
      ensures playerName == name && isHost && roomCode == Some(code)
      ensures ownId == Some(RoomCodeToPeerId(code))
      ensures connectionState == Connecting
      ensures events == old(events) + [StateChanged(Connecting)]
    {
      playerName := name;
      isHost := true;
      code := GenerateRoomCode(picks);
      roomCode := Some(code);
      SetConnectionState(Connecting);
      ownId := Some(RoomCodeToPeerId(code));
    }

    /** The host peer's `open` event: the host enters its own roster and
        starts the heartbeat. */
    method HostPeerOpened(id: PeerId)
      requires Valid()
      modifies this`connectionState, this`players, this`heartbeatRunning, this`events
      ensures Valid()
      ensures connectionState == Connected && heartbeatRunning
      ensures players == Put(old(players), id, PeerInfo(playerName, true))
      ensures events == old(events) + [StateChanged(Connected), RoomCreated(roomCode)]
    {
      SetConnectionState(Connected);
      players := Put(players, id, PeerInfo(playerName, true));
      heartbeatRunning := true;
      events := events + [RoomCreated(roomCode)];
    }

    /** joinGame up to the peer's creation: the typed code is upper-cased,
        and the peer gets the generated `clientId`. */
    method JoinGame(code: string, name: string, clientId: PeerId)
      modifies this`playerName, this`isHost, this`roomCode, this`ownId, this`connectionState, this`events
      ensures playerName == name && !isHost && roomCode == Some(Upper(code))
      ensures ownId == Some(clientId)
      ensures connectionState == Connecting
      ensures events == old(events) + [StateChanged(Connecting)]
    {
      playerName := name;
      isHost := false;
      roomCode := Some(Upper(code));
      SetConnectionState(Connecting);
      ownId := Some(clientId);
    }

    /** The client's channel to the host opens: it is stored, the client
        announces itself and starts the heartbeat. */
    method JoinChannelOpened()
      requires Valid() && roomCode.Some?
      modifies this`connections, this`outbox, this`connectionState, this`heartbeatRunning, this`events
      ensures Valid()
      ensures var hostId := RoomCodeToPeerId(roomCode.value);
        && connections == Put(old(connections), hostId, true)
        && outbox == old(outbox) + [Outgoing(hostId, Packet(PlayerJoinMsg, Named(playerName), Sender()))]
      ensures connectionState == Connected && heartbeatRunning
      ensures events == old(events) + [StateChanged(Connected), JoinedRoom(roomCode)]
    {
      var hostId := RoomCodeToPeerId(roomCode.value);
      connections := Put(connections, hostId, true);
      Send(hostId, PlayerJoinMsg, Named(playerName));
      SetConnectionState(Connected);
      heartbeatRunning := true;
      events := events + [JoinedRoom(roomCode)];
    }

    /** handleIncomingConnection's `open` handler: the channel is stored
        and counts as heard from now. */
    method IncomingChannelOpened(p: PeerId, now: int)
      requires Valid()
      modifies this`connections, this`lastPongTime
      ensures Valid()
      ensures connections == Put(old(connections), p, true)
      ensures lastPongTime == old(lastPongTime)[p := now]
    {
      connections := Put(connections, p, true);
      lastPongTime := lastPongTime[p := now];
    }

    /** The transport reports a channel no longer open (before its close
        event, if any, arrives). */
    method ChannelClosed(p: PeerId)
      requires Valid()
      modifies this`connections
      ensures Valid()
      ensures p in old(connections.values) ==> connections == Put(old(connections), p, false)
      ensures p !in old(connections.values) ==> connections == old(connections)
    {
      if p in connections.values {
        connections := Put(connections, p, false);
      }
    }

    /** send: one packet, and only on an open channel. */
    method Send(to: PeerId, msgType: string, payload: Payload)
      modifies this`outbox
      ensures outbox == old(outbox) + SendTo(connections, to, Packet(msgType, payload, Sender()))
      ensures |outbox| <= |old(outbox)| + 1
    {
      if to in connections.values && connections.values[to] {
        outbox := outbox + [Outgoing(to, Packet(msgType, payload, Sender()))];
      }
    }

    /** broadcast: the packet to every connection but `exclude`, in the
        Map's order. */
    method Broadcast(msgType: string, payload: Payload, exclude: Option<PeerId>)
      modifies this`outbox
      ensures outbox == old(outbox) + Fanout(connections, Packet(msgType, payload, Sender()), exclude)
    {
      var keys := connections.keys;
      var i := 0;
      while i < |keys|
        invariant 0 <= i <= |keys|
        invariant old(outbox) + Fanout(connections, Packet(msgType, payload, Sender()), exclude)
               == outbox + FanoutOver(keys[i..], connections, Packet(msgType, payload, Sender()), exclude)
      {
        ghost var outBefore := outbox;
        ghost var packet := Packet(msgType, payload, Sender());
        ghost var head := if Some(keys[i]) != exclude then SendTo(connections, keys[i], packet) else [];
        assert keys[i..][1..] == keys[i + 1..];
        assert FanoutOver(keys[i..], connections, packet, exclude)
            == head + FanoutOver(keys[i + 1..], connections, packet, exclude);
        if Some(keys[i]) != exclude {
          Send(keys[i], msgType, payload);
        }
        assert outbox == outBefore + head;
        Regroup3(outBefore, head, FanoutOver(keys[i + 1..], connections, packet, exclude));
        i := i + 1;
      }
    }

    /** sendGameMessage: the host tells everyone, a client only the host. */
    method SendGameMessage(msgType: string, payload: Payload)
      modifies this`outbox
      ensures isHost ==> outbox == old(outbox) + Fanout(connections, Packet(msgType, payload, Sender()), None)
      ensures !isHost && roomCode.Some? ==>
        outbox == old(outbox) + SendTo(connections, RoomCodeToPeerId(roomCode.value), Packet(msgType, payload, Sender()))
      ensures !isHost && roomCode.None? ==> outbox == old(outbox)
    {
      if isHost {
        Broadcast(msgType, payload, None);
      } else if roomCode.Some? {
        Send(RoomCodeToPeerId(roomCode.value), msgType, payload);
      }
    }

    /** handleError: the state becomes Error whatever it was. */
    method HandleError(message: string)
      modifies this`connectionState, this`events
      ensures connectionState == Error
      ensures events == old(events) + [StateChanged(Error), ErrorRaised(message)]
    {
      SetConnectionState(Error);
      events := events + [ErrorRaised(message)];
    }

    /** disconnect: every table emptied, no room, no host role, no peer,
        no heartbeat. Every field it sets gets a fixed value, so a second
        call leaves them as the first did. */
    method Disconnect()
      modifies this`heartbeatRunning, this`connections, this`players, this`lastPongTime, this`ownId,
               this`roomCode, this`isHost, this`connectionState, this`events
      ensures Valid()
      ensures !heartbeatRunning && ownId == None && roomCode == None && !isHost
      ensures connections == EmptyMap() && players == EmptyMap() && lastPongTime == map[]
      ensures connectionState == Disconnected
      ensures events == old(events) + [StateChanged(Disconnected)]
    {
      heartbeatRunning := false;
      connections := EmptyMap();
      players := EmptyMap();
      lastPongTime := map[];
      ownId := None;
      roomCode := None;
      isHost := false;
      SetConnectionState(Disconnected);
    }

    /** The host's side of handleDisconnection. */
    method DropPeer(p: PeerId)
      requires Valid()
      modifies this`connections, this`players, this`lastPongTime, this`outbox, this`events
      ensures Valid()
      ensures var s := HostDrop(old(CurrentTables()), p, Sender());
        CurrentTables() == s.tables && outbox == old(outbox) + s.sent && events == old(events) + s.emitted
    {
      var had := p in players.values;
      var name := if had then players.values[p].name else "";
      connections := Remove(connections, p);
      players := Remove(players, p);
      lastPongTime := lastPongTime - {p};
      if had {
        Broadcast(PlayerLeaveMsg, PeerRef(p, name), None);
        events := events + [PlayerLeft(p, name)];
      }
    }

    /** handleDisconnection: p is forgotten everywhere. The host tells the
        rest of the room if p was a player; a client whose host went away
        reports it and disconnects. On a client with no room code the
        host-id comparison throws, after the deletions. */
    method HandleDisconnection(p: PeerId)
      requires Valid()
      modifies this`heartbeatRunning, this`connections, this`players, this`lastPongTime, this`ownId,
               this`roomCode, this`isHost, this`connectionState, this`outbox, this`events
      ensures Valid()
      ensures old(isHost) ==> var s := HostDrop(old(CurrentTables()), p, old(Sender()));
        && CurrentTables() == s.tables && outbox == old(outbox) + s.sent && events == old(events) + s.emitted
        && isHost && roomCode == old(roomCode) && connectionState == old(connectionState)
        && heartbeatRunning == old(heartbeatRunning) && ownId == old(ownId)
      ensures !old(isHost) && old(roomCode).Some? && p == RoomCodeToPeerId(old(roomCode).value) ==>
        && connections == EmptyMap() && players == EmptyMap() && lastPongTime == map[]
        && roomCode == None && ownId == None && !heartbeatRunning && connectionState == Disconnected
        && outbox == old(outbox)
        && events == old(events) + [StateChanged(Error), ErrorRaised("Host disconnected"), StateChanged(Disconnected)]
      ensures !old(isHost) && !(old(roomCode).Some? && p == RoomCodeToPeerId(old(roomCode).value)) ==>
        && CurrentTables() == Forget(old(CurrentTables()), p)
        && roomCode == old(roomCode) && !isHost && connectionState == old(connectionState)
        && heartbeatRunning == old(heartbeatRunning) && ownId == old(ownId)
        && outbox == old(outbox) && events == old(events)
    {
      if isHost {
        DropPeer(p);
      } else {
        connections := Remove(connections, p);
        players := Remove(players, p);
        lastPongTime := lastPongTime - {p};
        if roomCode.Some? && p == RoomCodeToPeerId(roomCode.value) {
          HandleError("Host disconnected");
          Disconnect();
        }
      }
    }

    /** PLAYER_JOIN on the host: p enters the roster as a guest, gets the
        whole roster, and everyone else hears about it. */
    method AdmitPlayer(p: PeerId, name: string)
      requires Valid()
      modifies this`players, this`outbox, this`events
      ensures Valid()
      ensures players == Put(old(players), p, PeerInfo(name, false))
      ensures outbox == old(outbox)
        + SendTo(connections, p, Packet(PlayerListMsg, Roster(Entries(players)), Sender()))
        + Fanout(connections, Packet(PlayerJoinMsg, PeerRef(p, name), Sender()), Some(p))
      ensures events == old(events) + [PlayerJoined(p, name)]
    {
      players := Put(players, p, PeerInfo(name, false));
      Send(p, PlayerListMsg, Roster(Entries(players)));
      Broadcast(PlayerJoinMsg, PeerRef(p, name), Some(p));
      events := events + [PlayerJoined(p, name)];
    }

    /** PLAYER_LIST: the roster is cleared and refilled from the list. */
    method ReplaceRoster(list: seq<RosterEntry>)
      requires Valid()
      modifies this`players, this`events
      ensures Valid()
      ensures players == FromRoster(list)
      ensures events == old(events) + [RosterUpdated(Entries(players))]
    {
      players := EmptyMap();
      var i := 0;
      while i < |list|
        invariant 0 <= i <= |list|
        invariant players == FromRoster(list[..i])
        invariant events == old(events)
      {
        assert list[..i + 1][..i] == list[..i];
        players := Put(players, list[i].id, PeerInfo(list[i].name, list[i].isHost));
        i := i + 1;
      }
      assert list[..i] == list;
      events := events + [RosterUpdated(Entries(players))];
    }

    /** handleMessage: a packet of type `msgType` arrived from peer `from`
        at time `now`. A payload without the fields a branch dereferences
        makes that branch throw: before any change for PLAYER_JOIN and
        PLAYER_LEAVE, right after clearing the roster for PLAYER_LIST. */
    method HandleMessage(from: PeerId, msgType: string, payload: Payload, now: int)
      requires Valid()
      modifies this`players, this`lastPongTime, this`outbox, this`events
      ensures Valid()
      ensures msgType == PingMsg ==>
        && outbox == old(outbox) + SendTo(connections, from, Packet(PongMsg, Stamp(TimestampOf(payload)), Sender()))
        && players == old(players) && lastPongTime == old(lastPongTime) && events == old(events)
      ensures msgType == PongMsg ==>
        && lastPongTime == old(lastPongTime)[from := now]
        && players == old(players) && outbox == old(outbox) && events == old(events)
      ensures msgType == PlayerJoinMsg && isHost && payload.Named? ==>
        && players == Put(old(players), from, PeerInfo(payload.name, false))
        && outbox == old(outbox)
             + SendTo(connections, from, Packet(PlayerListMsg, Roster(Entries(players)), Sender()))
             + Fanout(connections, Packet(PlayerJoinMsg, PeerRef(from, payload.name), Sender()), Some(from))
        && events == old(events) + [PlayerJoined(from, payload.name)]
        && lastPongTime == old(lastPongTime)
      ensures msgType == PlayerJoinMsg && !(isHost && payload.Named?) ==>
        players == old(players) && lastPongTime == old(lastPongTime) && outbox == old(outbox) && events == old(events)
      ensures msgType == PlayerListMsg ==>
        && players == (if payload.Roster? then FromRoster(payload.players) else EmptyMap())
        && events == old(events) + (if payload.Roster? then [RosterUpdated(Entries(players))] else [])
        && lastPongTime == old(lastPongTime) && outbox == old(outbox)
      ensures msgType == PlayerLeaveMsg && !isHost && payload.PeerRef? ==>
        && players == Remove(old(players), payload.id)
        && events == old(events) + [PlayerLeft(payload.id, payload.name)]
        && lastPongTime == old(lastPongTime) && outbox == old(outbox)
      ensures msgType == PlayerLeaveMsg && !(!isHost && payload.PeerRef?) ==>
        players == old(players) && lastPongTime == old(lastPongTime) && outbox == old(outbox) && events == old(events)
      ensures msgType !in {PingMsg, PongMsg, PlayerJoinMsg, PlayerListMsg, PlayerLeaveMsg} ==>
        && events == old(events) + [Delivered(msgType, payload, from)]
        && players == old(players) && lastPongTime == old(lastPongTime) && outbox == old(outbox)
    {
      if msgType == PingMsg {
        Send(from, PongMsg, Stamp(TimestampOf(payload)));
      } else if msgType == PongMsg {
        lastPongTime := lastPongTime[from := now];
      } else if msgType == PlayerJoinMsg {
        if isHost && payload.Named? {
          AdmitPlayer(from, payload.name);
        }
      } else if msgType == PlayerListMsg {
        if payload.Roster? {
          ReplaceRoster(payload.players);
        } else {
          players := EmptyMap();
        }
      } else if msgType == PlayerLeaveMsg {
        if !isHost && payload.PeerRef? {
          players := Remove(players, payload.id);
          events := events + [PlayerLeft(payload.id, payload.name)];
        }
      } else {
        events := events + [Delivered(msgType, payload, from)];
      }
    }

    /** The sweep's work for one key: PING it, and drop it when this is
        the host and the peer is stale. Seen from the loop over `keys`,
        this is the step from key `i` to key `i + 1` of the sweep `total`. */
    method SweepOne(p: PeerId, now: int, ghost keys: seq<PeerId>, ghost i: nat, ghost total: Step,
                    ghost out0: seq<Outgoing>, ghost ev0: seq<Event>)
      requires Valid() && i < |keys| && keys[i] == p
      requires SweepRemains(CurrentTables(), keys, i, now, Sender(), isHost, total, out0, outbox, ev0, events)
      modifies this`connections, this`players, this`lastPongTime, this`outbox, this`events
      ensures Valid()
      ensures SweepRemains(CurrentTables(), keys, i + 1, now, Sender(), isHost, total, out0, outbox, ev0, events)
      ensures var d := DropIfStale(old(CurrentTables()), p, now, Sender(), isHost);
        && CurrentTables() == d.tables
        && outbox == old(outbox) + SendTo(old(connections), p, PingPacket(now, Sender())) + d.sent
        && events == old(events) + d.emitted
    {
      ghost var before := CurrentTables();
      ghost var outBefore := outbox;
      ghost var evBefore := events;
      Send(p, PingMsg, Stamp(Some(now)));
      if isHost && Stale(lastPongTime, p, now) {
        DropPeer(p);
      }
      SweepAdvance(before, keys, i, now, Sender(), isHost, total, out0, outBefore, ev0, evBefore,
                   CurrentTables(), outbox, events);
    }

    /** One firing of the heartbeat interval at time `now`: every channel
        is pinged in the Map's order, and the host drops each peer it has
        not heard from within the timeout right after pinging it. */
    method HeartbeatSweep(now: int)
      requires Valid() && heartbeatRunning
      modifies this`connections, this`players, this`lastPongTime, this`outbox, this`events
      ensures Valid()
      ensures var s := SweepOver(old(CurrentTables()), old(connections.keys), now, Sender(), isHost);
        CurrentTables() == s.tables && outbox == old(outbox) + s.sent && events == old(events) + s.emitted
    {
      var keys := connections.keys;
      ghost var total := SweepOver(CurrentTables(), keys, now, Sender(), isHost);
      var i := 0;
      while i < |keys|
        invariant 0 <= i <= |keys|
        invariant Valid()
        invariant SweepRemains(CurrentTables(), keys, i, now, Sender(), isHost, total,
                               old(outbox), outbox, old(events), events)
      {
        SweepOne(keys[i], now, keys, i, total, old(outbox), old(events));
        i := i + 1;
      }
    }
  }
}
