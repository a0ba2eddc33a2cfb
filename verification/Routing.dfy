/** Routing of chat rooms to Redis shards and channels (services/chat/broker.go). */
module Routing {

  /** A Go string is a sequence of bytes. */
  type Bytes = seq<bv8>

  /** len(b.shards): at least one address is configured, and the count fits a uint32. */
  type ShardCount = n: int | 1 <= n < 0x1_0000_0000 witness 1

  /** One pub/sub log: a channel on one Redis instance. */
  datatype LogKey = LogKey(shard: int, channel: Bytes)

  /** "chat:room:" */
  const ROOM_CHANNEL_PREFIX: Bytes := [0x63, 0x68, 0x61, 0x74, 0x3a, 0x72, 0x6f, 0x6f, 0x6d, 0x3a]

  function RoomChannel(room: Bytes): Bytes {
    ROOM_CHANNEL_PREFIX + room
  }

  /** FNV-1a over 32 bits, continued from h; the multiplication wraps around. */
  function Fnv1a(h: bv32, data: Bytes): bv32
    decreases data
  {
    if data == [] then h else Fnv1a((h ^ (data[0] as bv32)) * 0x0100_0193, data[1..])
  }

  function ShardIndex(room: Bytes, n: ShardCount): (i: int)
    ensures 0 <= i < n
  {
    if n <= 1 then 0 else (Fnv1a(0x811c_9dc5, room) as int) % n
  }

  /** Both publish and subscribe address the log of a room this way. */
  function Route(room: Bytes, n: ShardCount): LogKey {
    LogKey(ShardIndex(room, n), RoomChannel(room))
  }

  /** Two rooms never share a log, whatever the hash does. */
  lemma RouteInjective(a: Bytes, b: Bytes, n: ShardCount)
    requires Route(a, n) == Route(b, n)
    ensures a == b
  {
    var k := |ROOM_CHANNEL_PREFIX|;
    assert a == RoomChannel(a)[k..] == RoomChannel(b)[k..] == b;
  }

  /** The hash is 32-bit FNV-1a: its published values for the empty string and for "a". */
  lemma Fnv1aValues()
    ensures Fnv1a(0x811c_9dc5, []) == 0x811c_9dc5 && Fnv1a(0x811c_9dc5, [0x61]) == 0xe40c_292c
  {
    assert [0x61 as bv8][1..] == [];
  }

  /** The channel names begin with chat:room: */
  lemma PrefixSpelled(room: Bytes, i: nat)
    requires i < 10
    ensures Route(room, 1).channel[..10] == ROOM_CHANNEL_PREFIX
    ensures ROOM_CHANNEL_PREFIX[i] as int == "chat:room:"[i] as int
  {
  }

  /** The shard of a room is the remainder of its hash, whatever the number of shards. */
  lemma ShardFollowsHash(room: Bytes, n: ShardCount) returns (quotient: int)
    ensures Fnv1a(0x811c_9dc5, room) as int == quotient * n + Route(room, n).shard
    ensures 0 <= Route(room, n).shard < n
  {
    quotient := Quotient(Fnv1a(0x811c_9dc5, room) as int, n);
  }

  lemma Quotient(h: int, n: ShardCount) returns (q: int)
    requires h >= 0
    ensures h == q * n + h % n && (n == 1 ==> h % n == 0)
  {
    q := h / n;
  }
}
