/**
 * The Redis-backed checkpoint store. A `RedisCheckpoint` keeps an in-process
 * cache from shard id to the last sequence number recorded for it, and
 * writes every checkpoint through to a durable key-value store under a key
 * derived from the application name, the stream name and the shard id.
 *
 * The Redis server is `KeyValueStore`, a map from key to value; whether a
 * network round trip succeeds is the `reachable` argument of each call.
 * Locking is left out: every operation is one atomic step.
 */
module Checkpoint {
  import opened Wrappers

  /** The durable key of a shard's checkpoint: `<app>:checkpoint:<stream>:<shard>`. */
  function Key(appName: string, streamName: string, shardID: string): string {
    appName + ":checkpoint:" + streamName + ":" + shardID
  }

  /** The part of every key of one store that precedes the shard id. */
  function KeyPrefix(appName: string, streamName: string): string {
    appName + ":checkpoint:" + streamName + ":"
  }

  /** Recovers the shard id from a durable key of the given application and stream. */
  function ShardOfKey(appName: string, streamName: string, key: string): (r: Option<string>)
    ensures r.Some? ==> Key(appName, streamName, r.value) == key
  {
    var p := KeyPrefix(appName, streamName);
    if |p| <= |key| && key[..|p|] == p then
      assert key == key[..|p|] + key[|p|..];
      Some(key[|p|..])
    else None
  }

  /** Every key names its shard: the shard id can be read back from the key. */
  lemma KeyRoundTrip(appName: string, streamName: string, shardID: string)
    ensures ShardOfKey(appName, streamName, Key(appName, streamName, shardID)) == Some(shardID)
  {
    var p := KeyPrefix(appName, streamName);
    var k := Key(appName, streamName, shardID);
    assert k == p + shardID;
    assert k[..|p|] == p;
    assert k[|p|..] == shardID;
  }

  /** Within one application and stream, distinct shards never share a durable key. */
  lemma KeyInjective(appName: string, streamName: string, s1: string, s2: string)
    requires Key(appName, streamName, s1) == Key(appName, streamName, s2)
    ensures s1 == s2
  {
    KeyRoundTrip(appName, streamName, s1);
    KeyRoundTrip(appName, streamName, s2);
  }

  lemma KeyExample()
    ensures Key("app", "stream1", "shardId-0") == "app:checkpoint:stream1:shardId-0"
  {
  }

  /**
   * The separator is not escaped, so names that contain ':' can address the
   * same key from different (application, stream) pairs.
   */
  lemma KeyAmbiguousAcrossStreams()
    ensures Key("a:checkpoint:b", "c", "d") == Key("a", "b:checkpoint:c", "d")
  {
  }

  /** The Redis server: GET and SET over a map from key to value, with no expiry. */
  class KeyValueStore {
    var entries: map<string, string>

    constructor (entries: map<string, string>)
      ensures this.entries == entries
    {
      this.entries := entries;
    }

    /**
     * GET. A missing key and a failed round trip both come back as the
     * empty value (the error that tells them apart is not modelled).
     */
    method Get(key: string, reachable: bool) returns (val: string)
      ensures reachable && key in entries ==> val == entries[key]
      ensures !reachable || key !in entries ==> val == ""
    {
      if reachable && key in entries {
        val := entries[key];
      } else {
        val := "";
      }
    }

    /** SET with expiration 0 (never expires); a failed round trip changes nothing. */
    method Set(key: string, value: string, reachable: bool) returns (failed: bool)
      modifies this`entries
      ensures failed == !reachable
      ensures entries == if reachable then old(entries)[key := value] else old(entries)
    {
      failed := !reachable;
      if reachable {
        entries := entries[key := value];
      }
    }
  }

  class RedisCheckpoint {
    const appName: string
    const streamName: string
    const client: KeyValueStore
    var sequenceNumbers: map<string, string>

    /** A store over `client` with an empty cache. */
    constructor (appName: string, streamName: string, client: KeyValueStore)
      ensures this.appName == appName && this.streamName == streamName && this.client == client
      ensures sequenceNumbers == map[]
    {
      this.appName := appName;
      this.streamName := streamName;
      this.client := client;
      sequenceNumbers := map[];
    }

    /**
     * Whether a non-empty checkpoint is stored durably for `shardID`; if so
     * it is adopted into the cache, replacing whatever was cached. A missing
     * key, an empty value and a failed lookup all answer false and leave the
     * cache alone.
     */
    method CheckpointExists(shardID: string, reachable: bool) returns (found: bool)
      modifies this`sequenceNumbers
      ensures var k := Key(appName, streamName, shardID);
        found <==> reachable && k in client.entries && client.entries[k] != ""
      ensures found ==>
        sequenceNumbers == old(sequenceNumbers)[shardID := client.entries[Key(appName, streamName, shardID)]]
      ensures !found ==> sequenceNumbers == old(sequenceNumbers)
    {
      var val := client.Get(Key(appName, streamName, shardID), reachable);
      if val != "" {
        sequenceNumbers := sequenceNumbers[shardID := val];
        return true;
      }
      return false;
    }

    /** The cached checkpoint of `shardID`, or "" when none is cached; the durable store is not consulted. */
    method SequenceNumber(shardID: string) returns (sequenceNumber: string)
      ensures shardID in sequenceNumbers ==> sequenceNumber == sequenceNumbers[shardID]
      ensures shardID !in sequenceNumbers ==> sequenceNumber == ""
    {
      if shardID in sequenceNumbers {
        sequenceNumber := sequenceNumbers[shardID];
      } else {
        sequenceNumber := "";
      }
    }

    /**
     * Writes the checkpoint durably and then caches it. A failed durable
     * write is only logged: the durable store keeps its old value but the
     * cache is updated all the same.
     */
    method SetCheckpoint(shardID: string, sequenceNumber: string, reachable: bool)
      modifies this`sequenceNumbers, client`entries
      ensures client.entries ==
        if reachable then old(client.entries)[Key(appName, streamName, shardID) := sequenceNumber]
        else old(client.entries)
      ensures sequenceNumbers == old(sequenceNumbers)[shardID := sequenceNumber]
    {
      var failed := client.Set(Key(appName, streamName, shardID), sequenceNumber, reachable);
      sequenceNumbers := sequenceNumbers[shardID := sequenceNumber];
    }
  }

  /**
   * Failover: a checkpoint written durably by one instance is found, and
   * read back unchanged, by a new instance with an empty cache over the same
   * durable store and the same application and stream names.
   */
  method ResumeAfterFailover(appName: string, streamName: string, shardID: string,
                             sequenceNumber: string, durable: map<string, string>)
    returns (found: bool, resumed: string)
    requires sequenceNumber != ""
    ensures found && resumed == sequenceNumber
  {
    var server := new KeyValueStore(durable);
    var writer := new RedisCheckpoint(appName, streamName, server);
    writer.SetCheckpoint(shardID, sequenceNumber, true);
    var reader := new RedisCheckpoint(appName, streamName, server);
    found := reader.CheckpointExists(shardID, true);
    resumed := reader.SequenceNumber(shardID);
  }

  /**
   * A durable write that fails is still visible to the writing instance,
   * while a new instance sees only what the durable store held before.
   */
  method WriteDuringOutage(appName: string, streamName: string, shardID: string,
                           sequenceNumber: string, durable: map<string, string>)
    returns (sameInstance: string, foundAfterFailover: bool, resumed: string)
    ensures sameInstance == sequenceNumber
    ensures var k := Key(appName, streamName, shardID);
      foundAfterFailover <==> k in durable && durable[k] != ""
    ensures foundAfterFailover ==> resumed == durable[Key(appName, streamName, shardID)]
    ensures !foundAfterFailover ==> resumed == ""
  {
    var server := new KeyValueStore(durable);
    var writer := new RedisCheckpoint(appName, streamName, server);
    writer.SetCheckpoint(shardID, sequenceNumber, false);
    sameInstance := writer.SequenceNumber(shardID);
    var reader := new RedisCheckpoint(appName, streamName, server);
    foundAfterFailover := reader.CheckpointExists(shardID, true);
    resumed := reader.SequenceNumber(shardID);
  }

  /** A shard that was never written has no checkpoint and reads as "". */
  method NeverWritten(appName: string, streamName: string, shardID: string, reachable: bool)
    returns (found: bool, read: string)
    ensures !found && read == ""
  {
    var server := new KeyValueStore(map[]);
    var store := new RedisCheckpoint(appName, streamName, server);
    found := store.CheckpointExists(shardID, reachable);
    read := store.SequenceNumber(shardID);
  }

  /** Writes to different shards do not disturb each other; for one shard the later write wins. */
  method TwoShards(appName: string, streamName: string, s1: string, n1: string, s2: string, n2: string,
                   ok1: bool, ok2: bool)
    returns (r1: string, r2: string)
    ensures r2 == n2
    ensures s1 != s2 ==> r1 == n1
    ensures s1 == s2 ==> r1 == n2
  {
    var server := new KeyValueStore(map[]);
    var store := new RedisCheckpoint(appName, streamName, server);
    store.SetCheckpoint(s1, n1, ok1);
    store.SetCheckpoint(s2, n2, ok2);
    r1 := store.SequenceNumber(s1);
    r2 := store.SequenceNumber(s2);
  }

  /**
   * Writing the same checkpoint twice in a row leaves the same cache, and
   * the same durable map, as writing it once with the outcome of either call.
   */
  method SetCheckpointTwice(store: RedisCheckpoint, shardID: string, sequenceNumber: string,
                            ok1: bool, ok2: bool)
    modifies store`sequenceNumbers, store.client`entries
    ensures store.sequenceNumbers == old(store.sequenceNumbers)[shardID := sequenceNumber]
    ensures store.client.entries ==
      if ok1 || ok2 then old(store.client.entries)[Key(store.appName, store.streamName, shardID) := sequenceNumber]
      else old(store.client.entries)
  {
    store.SetCheckpoint(shardID, sequenceNumber, ok1);
    store.SetCheckpoint(shardID, sequenceNumber, ok2);
  }
}
