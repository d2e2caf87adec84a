/**
 * The S3 emitter: writes one closed buffer of records as one object. The
 * object is named after the UTC date of the call and the buffer's first and
 * last sequence numbers, and its payload is the records' text concatenated
 * in order with nothing in between.
 *
 * A record is just its text. The bucket is `Bucket`, a map from object path
 * to payload. The date is a parameter, and whether the upload succeeds is
 * the `reachable` argument.
 */
module Emitter {
  import opened Wrappers
  import opened Text
  import opened DateFormat

  /** A closed batch: the records' text in order and the batch's two endpoints. */
  datatype Buffer = Buffer(records: seq<string>, firstSequenceNumber: string, lastSequenceNumber: string)
  {
    function NumRecordsInBuffer(): nat {
      |records|
    }
  }

  /** What is reported after an upload: the count and `s3://<bucket><path>`, or a failure. */
  datatype EmitReport = Emitted(count: nat, location: string) | UploadFailed

  // ---------------------------------------------------------------- payload

  /** The records' text joined in order, with no separator. */
  function Concat(records: seq<string>): string {
    if records == [] then "" else Concat(records[..|records| - 1]) + records[|records| - 1]
  }

  /** The sum of the records' lengths. */
  function TotalLength(records: seq<string>): nat {
    if records == [] then 0 else TotalLength(records[..|records| - 1]) + |records[|records| - 1]|
  }

  /** The payload is exactly as long as all records together: nothing is inserted. */
  lemma {:induction false} ConcatLength(records: seq<string>)
    ensures |Concat(records)| == TotalLength(records)
  {
    if records != [] {
      ConcatLength(records[..|records| - 1]);
    }
  }

  /** Concatenating a split batch is concatenating its halves. */
  lemma {:induction false} ConcatAppend(a: seq<string>, b: seq<string>)
    ensures Concat(a + b) == Concat(a) + Concat(b)
  {
    if b == [] {
      assert a + b == a;
    } else {
      var init, last := b[..|b| - 1], b[|b| - 1];
      assert (a + b)[..|a + b| - 1] == a + init;
      assert (a + b)[|a + b| - 1] == last;
      ConcatAppend(a, init);
      calc {
        Concat(a + b);
        Concat(a + init) + last;
        (Concat(a) + Concat(init)) + last;
        Concat(a) + (Concat(init) + last);
      }
    }
  }

  /** Read from the front: the first record, then the rest. */
  lemma ConcatFront(records: seq<string>)
    requires records != []
    ensures Concat(records) == records[0] + Concat(records[1..])
  {
    assert records == [records[0]] + records[1..];
    ConcatAppend([records[0]], records[1..]);
    assert Concat([records[0]]) == Concat([]) + records[0];
  }

  /**
   * Record `i` sits intact in the payload, starting right after the text of
   * the records before it.
   */
  lemma RecordInPayload(records: seq<string>, i: nat)
    requires i < |records|
    ensures var start := TotalLength(records[..i]);
      && start + |records[i]| <= |Concat(records)|
      && Concat(records)[start..start + |records[i]|] == records[i]
  {
    var before, rest := records[..i], records[i..];
    assert records == before + rest;
    assert rest == [records[i]] + records[i + 1..];
    ConcatAppend(before, rest);
    ConcatFront(rest);
    ConcatLength(before);
    SliceOfMiddle(Concat(before), records[i], Concat(records[i + 1..]));
  }

  lemma SliceOfMiddle(a: string, b: string, c: string)
    ensures (a + (b + c))[|a|..|a| + |b|] == b
  {
    var s := a + (b + c);
    assert forall k :: 0 <= k < |b| ==> s[|a| + k] == b[k];
  }

  lemma ConcatExample()
    ensures Concat(["a", "b", "c"]) == "abc"
  {
    assert ["a", "b", "c"][..2] == ["a", "b"];
    assert ["a", "b"][..1] == ["a"];
    assert ["a"][..0] == [];
  }

  /** The loop of Emit: each record's text appended to a growing buffer. */
  method BuildPayload(records: seq<string>) returns (payload: string)
    ensures payload == Concat(records)
    ensures |payload| == TotalLength(records)
  {
    payload := "";
    for i := 0 to |records|
      invariant payload == Concat(records[..i])
    {
      assert records[..i + 1][..i] == records[..i];
      payload := payload + records[i];
    }
    assert records[..|records|] == records;
    ConcatLength(records);
  }

  // ------------------------------------------------------------ object name

  /** The object path for a formatted date and a sequence-number range. */
  function ObjectName(date: string, firstSeq: string, lastSeq: string): string {
    "/" + (date + ("/" + (firstSeq + ("-" + (lastSeq + ".txt")))))
  }

  /** The path of a batch emitted on UTC date `today`: `/<YYYY-MM-DD>/<first>-<last>.txt`. */
  function S3FileName(today: Date, firstSeq: string, lastSeq: string): string {
    ObjectName(DateSegment(today), firstSeq, lastSeq)
  }

  datatype FileName = FileName(date: string, firstSeq: string, lastSeq: string)

  /** Splits `<first>-<last>.txt` at its first '-'. */
  function ParseRange(file: string): (r: Option<(string, string)>)
    ensures r.Some? ==> file == r.value.0 + ("-" + (r.value.1 + ".txt")) && '-' !in r.value.0
  {
    match SplitAt(file, '-')
    case None => None
    case Some((firstSeq, tail)) =>
      if |tail| < 4 || tail[|tail| - 4..] != ".txt" then None
      else
        assert tail == tail[..|tail| - 4] + ".txt";
        Some((firstSeq, tail[..|tail| - 4]))
  }

  /**
   * Splits an object path into its date segment (between the leading '/' and
   * the next one), the first sequence number (up to the first '-' after
   * that) and the last one (the rest, before ".txt").
   */
  function ParseFileName(name: string): (r: Option<FileName>)
    ensures r.Some? ==> && name == ObjectName(r.value.date, r.value.firstSeq, r.value.lastSeq)
                        && '/' !in r.value.date && '-' !in r.value.firstSeq
  {
    if |name| == 0 || name[0] != '/' then None
    else
      var split := SplitAt(name[1..], '/');
      if split.None? then None
      else
        var range := ParseRange(split.value.1);
        if range.None? then None
        else
          assert name == "/" + name[1..];
          Some(FileName(split.value.0, range.value.0, range.value.1))
  }

  /** A path built from a date with no '/' and a first sequence number with no '-' parses back. */
  lemma ObjectNameRoundTrip(date: string, firstSeq: string, lastSeq: string)
    requires '/' !in date && '-' !in firstSeq
    ensures ParseFileName(ObjectName(date, firstSeq, lastSeq)) == Some(FileName(date, firstSeq, lastSeq))
  {
    var tail := lastSeq + ".txt";
    var file := firstSeq + ("-" + tail);
    var name := ObjectName(date, firstSeq, lastSeq);
    assert name[1..] == date + ("/" + file);
    SplitAtAfter(date, '/', file);
    SplitAtAfter(firstSeq, '-', tail);
    assert tail[|tail| - 4..] == ".txt";
    assert tail[..|tail| - 4] == lastSeq;
    assert ParseRange(file) == Some((firstSeq, lastSeq));
  }

  /**
   * The name of an emitted batch gives back its date and both endpoints,
   * when the first sequence number has no '-' (sequence numbers are digits).
   */
  lemma S3FileNameRoundTrip(today: Date, firstSeq: string, lastSeq: string)
    requires ValidDate(today) && '-' !in firstSeq
    ensures ParseFileName(S3FileName(today, firstSeq, lastSeq)) == Some(FileName(DateSegment(today), firstSeq, lastSeq))
    ensures ParseDate(DateSegment(today)) == Some(today)
  {
    var seg := DateSegment(today);
    DateSegmentChars(today);
    ObjectNameRoundTrip(seg, firstSeq, lastSeq);
    DateSegmentRoundTrip(today);
  }

  /**
   * Two batches get the same object name only if they are emitted on the
   * same UTC date and share both endpoints.
   */
  lemma S3FileNameCollision(d1: Date, f1: string, l1: string, d2: Date, f2: string, l2: string)
    requires ValidDate(d1) && ValidDate(d2) && '-' !in f1 && '-' !in f2
    requires S3FileName(d1, f1, l1) == S3FileName(d2, f2, l2)
    ensures d1 == d2 && f1 == f2 && l1 == l2
  {
    S3FileNameRoundTrip(d1, f1, l1);
    S3FileNameRoundTrip(d2, f2, l2);
  }

  lemma S3FileNameExample()
    ensures S3FileName(Date(2024, 3, 11), "100", "205") == "/2024-03-11/100-205.txt"
  {
    DateSegmentExample();
  }

  // ----------------------------------------------------------------- upload

  /** An S3 bucket: object path to payload. */
  class Bucket {
    var objects: map<string, string>

    constructor (objects: map<string, string>)
      ensures this.objects == objects
    {
      this.objects := objects;
    }

    /** One PUT of a whole object; a failed request leaves the bucket as it was. */
    method Put(path: string, data: string, reachable: bool) returns (failed: bool)
      modifies this`objects
      ensures failed == !reachable
      ensures objects == if reachable then old(objects)[path := data] else old(objects)
    {
      failed := !reachable;
      if reachable {
        objects := objects[path := data];
      }
    }
  }

  datatype S3Emitter = S3Emitter(s3Bucket: string)
  {
    /**
     * Uploads the buffer as one object into `bucket` (the bucket named
     * `s3Bucket`), once, with no retry, and reports the outcome.
     */
    method Emit(buf: Buffer, today: Date, bucket: Bucket, reachable: bool) returns (report: EmitReport)
      modifies bucket`objects
      ensures var path := S3FileName(today, buf.firstSequenceNumber, buf.lastSequenceNumber);
        && (reachable ==> && bucket.objects == old(bucket.objects)[path := Concat(buf.records)]
                          && report == Emitted(|buf.records|, "s3://" + s3Bucket + path))
        && (!reachable ==> bucket.objects == old(bucket.objects) && report == UploadFailed)
    {
      var s3File := S3FileName(today, buf.firstSequenceNumber, buf.lastSequenceNumber);
      var payload := BuildPayload(buf.records);
      var failed := bucket.Put(s3File, payload, reachable);
      if failed {
        report := UploadFailed;
      } else {
        report := Emitted(buf.NumRecordsInBuffer(), "s3://" + s3Bucket + s3File);
      }
    }
  }

  /** Three records "a", "b", "c" numbered 1 to 3 become one object "abc" at `/<date>/1-3.txt`. */
  method EmitThreeRecords(today: Date) returns (objects: map<string, string>, report: EmitReport)
    ensures objects == map[S3FileName(today, "1", "3") := "abc"]
    ensures report == Emitted(3, "s3://logs" + S3FileName(today, "1", "3"))
  {
    var records := ["a", "b", "c"];
    assert Concat(records) == "abc" by {
      ConcatExample();
    }
    var bucket := new Bucket(map[]);
    report := S3Emitter("logs").Emit(Buffer(records, "1", "3"), today, bucket, true);
    objects := bucket.objects;
  }

  /** An empty buffer is still uploaded, as an empty object, and reported with count 0. */
  method EmitEmpty(today: Date, first: string, last: string, existing: map<string, string>)
    returns (objects: map<string, string>, report: EmitReport)
    ensures var path := S3FileName(today, first, last);
      && path in objects && objects[path] == ""
      && (forall p :: p in existing && p != path ==> p in objects && objects[p] == existing[p])
      && report.Emitted? && report.count == 0
  {
    var bucket := new Bucket(existing);
    report := S3Emitter("logs").Emit(Buffer([], first, last), today, bucket, true);
    objects := bucket.objects;
  }
}
