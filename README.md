# Kinesis connector checkpoints and S3 batch emission, modelled in Dafny

This project models the two leaf components of a Kinesis stream-processing
connector written in Go:

- **RedisCheckpoint**, the checkpoint store. For each shard it keeps an
  in-process cache from shard id to the last processed sequence number. It
  writes every checkpoint through to Redis under the key
  `<AppName>:checkpoint:<StreamName>:<shardID>`. `CheckpointExists` loads a
  non-empty durable value into the cache. `SequenceNumber` reads the cache
  only. `SetCheckpoint` writes to Redis and then updates the cache, even when
  the Redis write failed.
- **S3Emitter**, the batch emitter. It names a closed buffer
  `/<YYYY-MM-DD>/<first>-<last>.txt`, using the UTC date and the buffer's first
  and last sequence numbers. It builds the payload by appending every record's
  text in order with no separator, and uploads it with one PUT. No retry
  follows a failure.

Files:

- `checkpoint.dfy` (module `Checkpoint`) has the key format and its inverse,
  `KeyValueStore`, `RedisCheckpoint`, and client methods that state the
  properties across calls and instances. `KeyValueStore` is the Redis server
  seen as a map from key to value.
- `emitter.dfy` (module `Emitter`) has the payload specification `Concat` and the
  payload loop `BuildPayload`, the object name and its parser, `Bucket` (the
  S3 bucket as a map from path to payload), and `S3Emitter.Emit`.
- `date_format.dfy` (module `DateFormat`) writes a calendar date in the Go layout
  `2006-01-02`. `ParseDate` reads it back.
- `decimal.dfy` (module `Decimal`) holds zero-padded decimal rendering of
  naturals and its inverse `Value`.
- `text.dfy` (module `Text`) and `wrappers.dfy` (module `Wrappers`) hold the
  first-occurrence search, the split at a character, and `Option`.

External effects are explicit:

- Every round trip to Redis or S3 takes a `reachable: bool` argument that says
  whether the request succeeded.
- The current UTC date is a `Date(year, month, day)` argument.
- Locking is left out. Each operation is one atomic step.

## Model

| member | source | states |
|---|---|---|
| `Checkpoint.KeyRoundTrip` | redis_checkpoint.go:64-66 | the shard id can be read back from `Key(app, stream, shard)` = `app + ":checkpoint:" + stream + ":" + shard`, so the key has exactly that layout |
| `Checkpoint.ShardOfKey` | redis_checkpoint.go:64-66 | a shard id recovered from a key rebuilds that same key |
| `Checkpoint.KeyInjective` | redis_checkpoint.go:64-66 | within one application and stream, distinct shards never share a durable key |
| `Checkpoint.KeyExample` | redis_checkpoint.go:64-66 | app "app", stream "stream1", shard "shardId-0" give the key "app:checkpoint:stream1:shardId-0" |
| `Checkpoint.KeyAmbiguousAcrossStreams` | redis_checkpoint.go:65 | ':' is not escaped, so two different (application, stream) pairs can address the same key |
| `Checkpoint.KeyValueStore.Get` | redis_checkpoint.go:28 | GET yields the stored value, or "" when the key is missing or the request fails; the error is dropped |
| `Checkpoint.KeyValueStore.Set` | redis_checkpoint.go:52 | SET with no expiry stores the value on success and leaves the map unchanged on failure |
| `Checkpoint.RedisCheckpoint.constructor` | redis_checkpoint.go:14-22 | a store has a fixed application name, stream name and client, and starts with an empty cache |
| `Checkpoint.RedisCheckpoint.CheckpointExists` | redis_checkpoint.go:27-39 | true iff the request succeeds and the durable value at the shard's key is non-empty; if true, the cache entry of that shard becomes that value and no other entry changes; if false, the cache is unchanged |
| `Checkpoint.RedisCheckpoint.SequenceNumber` | redis_checkpoint.go:42-47 | returns the cached value, or "" for a shard that is not cached; changes nothing |
| `Checkpoint.RedisCheckpoint.SetCheckpoint` | redis_checkpoint.go:51-60 | the durable map gets `key := n` only on success; the cache gets `shard := n` in every case; all other entries stay the same |
| `Checkpoint.ResumeAfterFailover` | redis_checkpoint.go:27-66 | after a successful durable write of a non-empty n, a new store with the same names and an empty cache finds the checkpoint and reads n |
| `Checkpoint.WriteDuringOutage` | redis_checkpoint.go:51-60 | after a failed durable write the writing store reads the new value, while a new store sees only what Redis held before |
| `Checkpoint.NeverWritten` | redis_checkpoint.go:27-47 | a shard never written is reported missing and reads as "" |
| `Checkpoint.TwoShards` | redis_checkpoint.go:51-60 | writes to two different shards do not disturb each other; for the same shard the later write wins |
| `Checkpoint.SetCheckpointTwice` | redis_checkpoint.go:51-60 | writing the same checkpoint twice leaves the same cache and durable map as writing it once |
| `Decimal.ValueOfPadded` | s3_emitter.go:24 | zero padding a number to a width keeps the number it denotes |
| `Decimal.PaddedLength` | s3_emitter.go:24 | a number below 10^w is rendered in exactly w characters |
| `DateFormat.DateSegmentRoundTrip` | s3_emitter.go:24 | reading the `YYYY-MM-DD` segment back gives the same date |
| `DateFormat.DateSegmentInjective` | s3_emitter.go:24 | different dates give different segments |
| `DateFormat.DateSegmentShape` | s3_emitter.go:24 | for a four-digit year the segment has 10 characters: '-' at indices 4 and 7, digits elsewhere, month and day zero-padded |
| `DateFormat.DateSegmentExample` | s3_emitter.go:24 | 11 March 2024 is written "2024-03-11" |
| `Emitter.ParseFileName` | s3_emitter.go:23-26 | a parsed path is exactly `"/" + date + "/" + first + "-" + last + ".txt"`, with no '/' in the date and no '-' in the first sequence number |
| `Emitter.ObjectNameRoundTrip` | s3_emitter.go:25 | a path built from a date with no '/' and a first sequence number with no '-' parses back to its three parts |
| `Emitter.S3FileNameRoundTrip` | s3_emitter.go:23-26 | the object name gives back the emission date and both sequence numbers |
| `Emitter.S3FileNameCollision` | s3_emitter.go:23-26 | two batches share an object name only if they are emitted on the same UTC day with the same first and last sequence numbers |
| `Emitter.S3FileNameExample` | s3_emitter.go:23-26 | on 2024-03-11 the range "100" to "205" is named "/2024-03-11/100-205.txt" |
| `Emitter.ConcatLength` | s3_emitter.go:35-39 | the payload length is the sum of the record lengths, so no separator is added |
| `Emitter.ConcatAppend` | s3_emitter.go:35-39 | the payload of two record runs joined equals the two payloads joined |
| `Emitter.ConcatFront` | s3_emitter.go:35-39 | the payload is the first record's text followed by the payload of the rest |
| `Emitter.RecordInPayload` | s3_emitter.go:35-39 | record i appears intact in the payload, starting right after the records before it |
| `Emitter.ConcatExample` | s3_emitter.go:35-39 | records "a", "b", "c" give the payload "abc" |
| `Emitter.BuildPayload` | s3_emitter.go:35-39 | the append loop builds exactly the in-order concatenation, whose length is the sum of the record lengths |
| `Emitter.Bucket.Put` | s3_emitter.go:41 | one PUT stores the whole object on success and changes nothing on failure |
| `Emitter.S3Emitter.Emit` | s3_emitter.go:29-47 | on success exactly one object changes: the one at `S3FileName(today, first, last)`, now holding the concatenated records, and the report gives the record count and `s3://<bucket><path>`; on failure the bucket is unchanged, failure is reported and nothing is retried |
| `Emitter.EmitThreeRecords` | s3_emitter.go:29-47 | records "a", "b", "c" numbered 1 to 3 become the single object "abc" at `/<date>/1-3.txt`, reported as 3 records |
| `Emitter.EmitEmpty` | s3_emitter.go:29-47 | an empty buffer is still uploaded as an empty object and reported as 0 records; other objects keep their contents |

## Left out

- Network access to Redis and S3, and their clients (`redis.Client`, `aws.EnvAuth`, `s3.New`, `aws.USEast`, the bucket lookup by name). Each request is only its effect on a map, and a boolean says whether it succeeded. The error in `aws.EnvAuth` that the source ignores is not modelled.
- The S3 object's content type (`text/plain`), its private ACL and the PUT options. They are request metadata and do not affect the stored bytes.
- `sync.RWMutex` locking. It only serves concurrent callers, and the model runs every operation as one atomic sequential step. Interleavings of concurrent `SetCheckpoint` calls on one shard are therefore not modelled.
- The error log in `SetCheckpoint` and the two `fmt.Printf` messages of `Emit`. They are side output only. `Emit` returns what it prints, as an `EmitReport`.
- `time.Now().UTC()`. The date is a parameter, and the year is a natural number: dates before year 0 are not modelled.
- `Buffer` and `Record` are not part of this model. A buffer is its records' `ToString()` texts and its first and last sequence numbers. `NumRecordsInBuffer` is taken to be the number of records.
- Strings and byte payloads are both sequences of characters. The UTF-8 encoding of `WriteString` and `Bytes()` is not modelled.
- The code that creates a `RedisCheckpoint` is not part of this model. The constructor here starts with an empty cache. A store built with a nil map would panic on its first write in Go.
- Emitter.S3FileNameRoundTrip: stated only for a first sequence number that contains no '-'. Kinesis sequence numbers are decimal digits. Without that condition, the first and last numbers cannot be told apart in the name.
- Emitter.S3FileNameCollision: stated only for first sequence numbers that contain no '-', for the same reason.
