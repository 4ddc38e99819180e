/** Operations that depend on the type of a bucket: append routing and file status.  The type
    comes from a cache or from a HEAD request; the operations are compared with a decision
    procedure that knows no cache. */
module Dispatch {
  import opened Wrappers
  import opened StageGraph
  import opened Coordinator

  datatype BucketType = FNS | HNS

  /** Times are in nanoseconds of the steady clock, the timeout in seconds. */
  datatype Entry = Entry(bucketType: BucketType, writtenAt: int, timeout: nat)

  type Cache = map<string, Entry>

  const TIMEOUT: nat := 15 * 60
  const SECOND := 1_000_000_000

  /** duration_cast truncates toward zero. */
  function AgeInSeconds(e: Entry, now: int): int {
    var age := now - e.writtenAt;
    if age >= 0 then age / SECOND else -(-age / SECOND)
  }

  predicate Usable(c: Cache, bucket: string, now: int) {
    bucket in c && AgeInSeconds(c[bucket], now) < c[bucket].timeout
  }

  // ----- requests and their answers -----

  datatype ObjectHead = ObjectHead(
    statusCode: int, requestId: string, contentLength: int, crc64: int, crc32: int, etag: string,
    lastModified: string, isDirectory: bool)

  datatype FileStatus = FileStatus(
    statusCode: int, requestId: string, key: string, contentLength: int, size: int, crc64: int, crc32: int,
    etag: string, lastModified: string, isDirectory: bool)

  datatype Listed = Listed(key: string, size: int, crc64: int, etag: string, lastModified: string)

  datatype Listing = Listing(statusCode: int, requestId: string, contents: seq<Listed>)

  datatype AppendInput = AppendInput(
    bucket: string, key: string, offset: nat, contentLength: int, preHashCrc64: int, chunked: bool)

  datatype Appended = Appended(
    statusCode: int, requestId: string, contentLength: int, crc64: int, crc32: int, lastModified: string, nextAppendOffset: nat)

  datatype ModifyInput = ModifyInput(
    bucket: string, key: string, offset: nat, chunked: bool, contentLength: int, preHashCrc64: int)

  datatype Modified = Modified(
    statusCode: int, requestId: string, contentLength: int, crc64: int, crc32: int, lastModified: string, nextModifyOffset: nat)

  /** What the service answers during one operation. */
  datatype Server = Server(
    headBucket: string -> Result<BucketType>,
    headObject: (string, string) -> Result<ObjectHead>,
    stat: (string, string) -> Result<FileStatus>,
    list: (string, string, nat) -> Result<Listing>,
    modifyAt: ModifyInput -> Result<Modified>,
    appendTo: AppendInput -> Result<Appended>)

  datatype Request =
    | HeadBucket(bucket: string)
    | HeadObject(bucket: string, key: string)
    | GetFileStat(bucket: string, key: string)
    | ListObjects(bucket: string, prefix: string, maxKeys: nat)

  // ----- the steps of getFileStatus, callback by callback -----

  datatype Value = Probe(hit: bool, cached: BucketType) | Bucket(bucketType: BucketType) | Status(status: FileStatus)

  const CACHE_PROBE: Tag := 0
  const HEAD_BUCKET: Tag := 1
  const FILE_STATUS: Tag := 2

  /** What a step sends, and what it notifies the coordinator of in the end. */
  datatype Reply = Reply(sent: seq<Request>, notified: AnyOutcome<Value>)

  function NotifyStatus(r: Result<FileStatus>): AnyOutcome<Value> {
    Outcome(FILE_STATUS, match r case Ok(s) => Ok(Status(s)) case Err(e) => Err(e))
  }

  function ProbeOf(known: Option<BucketType>): Value {
    if known.Some? then Probe(true, known.value) else Probe(false, FNS)
  }

  function FromCache(v: Value): AnyOutcome<Value> {
    match v
    case Probe(_, t) => Outcome(HEAD_BUCKET, Ok(Bucket(t)))
    case _ => Nothing
  }

  function HeadBucketStep(server: Server, bucket: string): Reply {
    Reply([HeadBucket(bucket)],
          Outcome(HEAD_BUCKET, match server.headBucket(bucket) case Ok(t) => Ok(Bucket(t)) case Err(e) => Err(e)))
  }

  /** The converter of the head's outcome: size and content length are both the head's. */
  function OnHead(key: string, headOut: Result<ObjectHead>): Result<FileStatus> {
    match headOut
    case Err(e) => Err(e)
    case Ok(h) =>
      Ok(FileStatus(h.statusCode, h.requestId, key, h.contentLength, h.contentLength, h.crc64, h.crc32, h.etag,
                    h.lastModified, h.isDirectory))
  }

  function HnsStep(server: Server, bucket: string, key: string): Reply {
    Reply([HeadObject(bucket, key)], NotifyStatus(OnHead(key, server.headObject(bucket, key))))
  }

  const NOT_FOUND := Error(false, 404, "object not found")

  function OnList(listOut: Result<Listing>): AnyOutcome<Value> {
    match listOut
    case Err(e) => NotifyStatus(Err(e))
    case Ok(l) =>
      if l.contents == [] then NotifyStatus(Err(NOT_FOUND))
      else
        var o := l.contents[0];
        NotifyStatus(Ok(FileStatus(l.statusCode, l.requestId, o.key, 0, o.size, o.crc64, 0, o.etag, o.lastModified, false)))
  }

  function OnStat(server: Server, fallback: bool, bucket: string, key: string, statOut: Result<FileStatus>): Reply {
    if statOut.Ok? || !fallback || statOut.error.status != 404 then Reply([], NotifyStatus(statOut))
    else
      var listPrefix := if key != "" && key[|key| - 1] != '/' then key + "/" else key;
      Reply([ListObjects(bucket, listPrefix, 1)], OnList(server.list(bucket, listPrefix, 1)))
  }

  function FnsStep(server: Server, fallback: bool, bucket: string, key: string): Reply {
    var afterStat := OnStat(server, fallback, bucket, key, server.stat(bucket, key));
    Reply([GetFileStat(bucket, key)] + afterStat.sent, afterStat.notified)
  }

  /** What getFileStatus chains together. */
  function StatusScript(server: Server, fallback: bool, bucket: string, key: string): Script<Value> {
    ThenIfElse(HEAD_BUCKET, (v: Value) => v.Probe? && v.hit, FromCache, _ => HeadBucketStep(server, bucket).notified,
    ThenIfElse(FILE_STATUS, (v: Value) => v.Bucket? && v.bucketType == HNS,
               _ => HnsStep(server, bucket, key).notified,
               _ => FnsStep(server, fallback, bucket, key).notified,
    Done))
  }

  /** What a stage of that script sends; the stages are numbered as they are chained. */
  function SentBy(server: Server, fallback: bool, bucket: string, key: string, stage: nat): seq<Request> {
    if stage == 3 then HeadBucketStep(server, bucket).sent
    else if stage == 5 then HnsStep(server, bucket, key).sent
    else if stage == 6 then FnsStep(server, fallback, bucket, key).sent
    else []
  }

  function Sent(server: Server, fallback: bool, bucket: string, key: string, stages: seq<nat>): seq<Request> {
    if stages == [] then [] else
    SentBy(server, fallback, bucket, key, stages[0]) + Sent(server, fallback, bucket, key, stages[1..])
  }

  // ----- what an operation promises, without cache, stages and callbacks -----

  /** A key may name a directory: then the keys under it begin with the key and a slash. */
  predicate IsUnder(name: string, key: string) {
    key == "" || (key <= name && (key[|key| - 1] == '/' || (|key| < |name| && name[|key|] == '/')))
  }

  function Directory(key: string): string {
    if key == "" || key[|key| - 1] == '/' then key else key + "/"
  }

  lemma UnderMeansPrefix(name: string, key: string)
    ensures IsUnder(name, key) <==> Directory(key) <= name
  {
    if key != "" && key[|key| - 1] != '/' {
      if IsUnder(name, key) {
        assert name[..|key| + 1] == key + "/";
      }
    }
  }

  /** The stat fails with "not found" and the fallback is on: only then is anything listed. */
  predicate FallsBack(server: Server, fallback: bool, bucket: string, key: string) {
    fallback && server.stat(bucket, key).Err? && server.stat(bucket, key).error.status == 404
  }

  /** The answer for a flat bucket, case by case. */
  predicate AnswersFlat(server: Server, fallback: bool, bucket: string, key: string, sent: seq<Request>, r: Result<FileStatus>) {
    var listed := server.list(bucket, Directory(key), 1);
    && sent == [GetFileStat(bucket, key)] + (if FallsBack(server, fallback, bucket, key) then [ListObjects(bucket, Directory(key), 1)] else [])
    && (!FallsBack(server, fallback, bucket, key) ==> r == server.stat(bucket, key))
    && (FallsBack(server, fallback, bucket, key) ==>
          && (listed.Err? ==> r == Err(listed.error))
          && (listed.Ok? && listed.value.contents == [] ==> r == Err(Error(false, 404, "object not found")))
          && (listed.Ok? && listed.value.contents != [] ==>
                var o := listed.value.contents[0];
                && r.Ok? && r.value.key == o.key && r.value.size == o.size && r.value.etag == o.etag
                && r.value.crc64 == o.crc64 && r.value.lastModified == o.lastModified
                && r.value.contentLength == 0 && r.value.crc32 == 0 && !r.value.isDirectory
                && r.value.statusCode == listed.value.statusCode && r.value.requestId == listed.value.requestId))
  }

  /** The answer for a hierarchical bucket. */
  predicate AnswersHierarchical(server: Server, bucket: string, key: string, sent: seq<Request>, r: Result<FileStatus>) {
    var head := server.headObject(bucket, key);
    && sent == [HeadObject(bucket, key)]
    && (head.Err? ==> r == Err(head.error))
    && (head.Ok? ==>
          && r.Ok? && r.value.key == key && r.value.size == r.value.contentLength == head.value.contentLength
          && r.value.isDirectory == head.value.isDirectory && r.value.etag == head.value.etag
          && r.value.crc64 == head.value.crc64 && r.value.crc32 == head.value.crc32
          && r.value.lastModified == head.value.lastModified
          && r.value.statusCode == head.value.statusCode && r.value.requestId == head.value.requestId)
  }

  /** The file status, given what is known of the bucket.  A failed HEAD of the bucket is an
      error of another type than the final outcome, so the caller sees the generic one. */
  predicate AnswersStatus(
      server: Server, fallback: bool, head: Result<BucketType>, bucket: string, key: string, sent: seq<Request>, r: Result<FileStatus>)
  {
    match head
    case Err(_) => sent == [] && r == Err(Error(true, 0, STOPPED))
    case Ok(HNS) => AnswersHierarchical(server, bucket, key, sent, r)
    case Ok(FNS) => AnswersFlat(server, fallback, bucket, key, sent, r)
  }

  /** The callbacks of the flat branch answer as promised. */
  lemma FnsStepAnswers(server: Server, fallback: bool, bucket: string, key: string)
    ensures var reply := FnsStep(server, fallback, bucket, key);
            exists r :: reply.notified == NotifyStatus(r) && AnswersFlat(server, fallback, bucket, key, reply.sent, r)
  {
    var statOut := server.stat(bucket, key);
    var reply := FnsStep(server, fallback, bucket, key);
    if FallsBack(server, fallback, bucket, key) {
      var listOut := server.list(bucket, Directory(key), 1);
      var r := Unlifted(OnList(listOut));
      assert reply.notified == NotifyStatus(r);
      assert AnswersFlat(server, fallback, bucket, key, reply.sent, r);
    } else {
      assert reply.notified == NotifyStatus(statOut);
      assert AnswersFlat(server, fallback, bucket, key, reply.sent, statOut);
    }
  }

  /** The result that a notification of a file status carries. */
  function Unlifted(o: AnyOutcome<Value>): Result<FileStatus> {
    match o
    case Outcome(_, Ok(Status(s))) => Ok(s)
    case Outcome(_, Err(e)) => Err(e)
    case _ => Err(NOT_FOUND)
  }

  lemma HnsStepAnswers(server: Server, bucket: string, key: string)
    ensures var reply := HnsStep(server, bucket, key);
            exists r :: reply.notified == NotifyStatus(r) && AnswersHierarchical(server, bucket, key, reply.sent, r)
  {
    var r := OnHead(key, server.headObject(bucket, key));
    assert HnsStep(server, bucket, key).notified == NotifyStatus(r);
    assert AnswersHierarchical(server, bucket, key, HnsStep(server, bucket, key).sent, r);
  }

  // ----- what that means for a bucket of objects -----

  /** A flat bucket that holds the given objects and answers for them. */
  ghost predicate Serves(server: Server, bucket: string, objects: set<string>) {
    && (forall key ::
          if key in objects then server.stat(bucket, key).Ok? && server.stat(bucket, key).value.key == key
          else server.stat(bucket, key).Err? && server.stat(bucket, key).error.status == 404)
    && (forall prefix, n :: n > 0 ==>
          var l := server.list(bucket, prefix, n);
          && l.Ok? && |l.value.contents| <= n
          && (forall i :: 0 <= i < |l.value.contents| ==> l.value.contents[i].key in objects && prefix <= l.value.contents[i].key)
          && (l.value.contents == [] ==> forall o :: o in objects ==> !(prefix <= o)))
  }

  /** What the fallback is for: with it, a file status is found exactly for the objects and for
      the directories that objects lie under, and is that of the object itself if there is
      one; without it, exactly for the objects.  Otherwise it is "not found". */
  lemma FlatStatusFindsDirectories(
      server: Server, fallback: bool, bucket: string, key: string, objects: set<string>, sent: seq<Request>, r: Result<FileStatus>)
    requires Serves(server, bucket, objects) && AnswersFlat(server, fallback, bucket, key, sent, r)
    ensures r.Ok? <==> key in objects || (fallback && exists o :: o in objects && IsUnder(o, key))
    ensures r.Ok? && key in objects ==> r.value.key == key
    ensures r.Ok? && key !in objects ==> r.value.key in objects && IsUnder(r.value.key, key)
    ensures r.Err? ==> r.error.status == 404
  {
    assert key in objects <==> server.stat(bucket, key).Ok?;
    if FallsBack(server, fallback, bucket, key) {
      var listed := server.list(bucket, Directory(key), 1);
      assert listed.Ok?;
      if listed.value.contents != [] {
        UnderMeansPrefix(listed.value.contents[0].key, key);
      } else {
        forall o | o in objects ensures !IsUnder(o, key) { UnderMeansPrefix(o, key); }
      }
    }
  }

  // ----- the script means the decision -----

  /** The type that an operation goes by: the cached one, else the answer of a HEAD request. */
  function Known(server: Server, bucket: string, cached: Option<BucketType>): Result<BucketType> {
    if cached.Some? then Ok(cached.value) else server.headBucket(bucket)
  }

  /** The last step of the script. */
  function LastStep(server: Server, fallback: bool, bucket: string, key: string, t: BucketType): Reply {
    if t == HNS then HnsStep(server, bucket, key) else FnsStep(server, fallback, bucket, key)
  }

  lemma BucketStepDecides(server: Server, fallback: bool, bucket: string, key: string, t: BucketType)
    ensures var rest := StatusScript(server, fallback, bucket, key).rest;
            var o := Outcome(HEAD_BUCKET, Ok(Bucket(t)));
            && Denote(rest, HEAD_BUCKET, o) == LastStep(server, fallback, bucket, key, t).notified
            && Trace(rest, HEAD_BUCKET, o, 4) == [4, if t == HNS then 5 else 6]
  {
  }

  /** What the probe of the cache leads to. */
  lemma ProbeStepDecides(server: Server, fallback: bool, bucket: string, key: string, cached: Option<BucketType>)
    ensures var script := StatusScript(server, fallback, bucket, key);
            var o := Outcome(CACHE_PROBE, Ok(ProbeOf(cached)));
            var r := if cached.Some? then FromCache(ProbeOf(cached)) else HeadBucketStep(server, bucket).notified;
            && Denote(script, CACHE_PROBE, o) == Denote(script.rest, HEAD_BUCKET, r)
            && Trace(script, CACHE_PROBE, o, 1) == [1, if cached.Some? then 2 else 3] + Trace(script.rest, HEAD_BUCKET, r, 4)
  {
  }

  lemma SentFirst(server: Server, fallback: bool, bucket: string, key: string, stage: nat, rest: seq<nat>)
    ensures Sent(server, fallback, bucket, key, [stage] + rest) ==
            SentBy(server, fallback, bucket, key, stage) + Sent(server, fallback, bucket, key, rest)
  {
    assert ([stage] + rest)[1..] == rest;
  }

  /** Start, condition, the step that says what the bucket is, and what follows. */
  lemma SentByRun(server: Server, fallback: bool, bucket: string, key: string, first: nat, rest: seq<nat>)
    ensures Sent(server, fallback, bucket, key, [0] + ([1, first] + rest)) ==
            SentBy(server, fallback, bucket, key, first) + Sent(server, fallback, bucket, key, rest)
  {
    SentFirst(server, fallback, bucket, key, 0, [1, first] + rest);
    assert [1, first] + rest == [1] + ([first] + rest);
    SentFirst(server, fallback, bucket, key, 1, [first] + rest);
    SentFirst(server, fallback, bucket, key, first, rest);
  }

  lemma SentByLast(server: Server, fallback: bool, bucket: string, key: string, last: nat)
    ensures Sent(server, fallback, bucket, key, [4, last]) == SentBy(server, fallback, bucket, key, last)
  {
    assert [4, last] == [4] + ([last] + []);
    SentFirst(server, fallback, bucket, key, 4, [last] + []);
    SentFirst(server, fallback, bucket, key, last, []);
  }

  /** The script of getFileStatus, run by the coordinator, makes the decision: the HEAD of the
      bucket is sent exactly if nothing is cached, and then result and requests are those
      promised for the bucket's type. */
  lemma ScriptIsDecision(server: Server, fallback: bool, bucket: string, key: string, cached: Option<BucketType>)
    ensures var script := StatusScript(server, fallback, bucket, key);
            var o := Outcome(CACHE_PROBE, Ok(ProbeOf(cached)));
            var final := Finalized(Denote(script, CACHE_PROBE, o), FILE_STATUS);
            var all := Sent(server, fallback, bucket, key, [0] + Trace(script, CACHE_PROBE, o, 1));
            exists sent, r ::
              && final == NotifyStatus(r).result
              && all == (if cached.Some? then [] else [HeadBucket(bucket)]) + sent
              && AnswersStatus(server, fallback, Known(server, bucket, cached), bucket, key, sent, r)
  {
    var script := StatusScript(server, fallback, bucket, key);
    var o := Outcome(CACHE_PROBE, Ok(ProbeOf(cached)));
    var known := Known(server, bucket, cached);
    var first := if cached.Some? then 2 else 3;
    ProbeStepDecides(server, fallback, bucket, key, cached);
    if known.Ok? {
      var t := known.value;
      BucketStepDecides(server, fallback, bucket, key, t);
      SentByRun(server, fallback, bucket, key, first, [4, if t == HNS then 5 else 6]);
      SentByLast(server, fallback, bucket, key, if t == HNS then 5 else 6);
      var reply := LastStep(server, fallback, bucket, key, t);
      var r := LastStepAnswers(server, fallback, bucket, key, t);
      assert AnswersStatus(server, fallback, known, bucket, key, reply.sent, r);
    } else {
      SentByRun(server, fallback, bucket, key, first, []);
      var r := Err(Error(true, 0, STOPPED));
      assert AnswersStatus(server, fallback, known, bucket, key, [], r);
    }
  }

  lemma LastStepAnswers(server: Server, fallback: bool, bucket: string, key: string, t: BucketType)
      returns (r: Result<FileStatus>)
    ensures var reply := LastStep(server, fallback, bucket, key, t);
            reply.notified == NotifyStatus(r) && AnswersStatus(server, fallback, Ok(t), bucket, key, reply.sent, r)
  {
    var reply := LastStep(server, fallback, bucket, key, t);
    if t == HNS {
      HnsStepAnswers(server, bucket, key);
      r :| reply.notified == NotifyStatus(r) && AnswersHierarchical(server, bucket, key, reply.sent, r);
    } else {
      FnsStepAnswers(server, fallback, bucket, key);
      r :| reply.notified == NotifyStatus(r) && AnswersFlat(server, fallback, bucket, key, reply.sent, r);
    }
  }

  // ----- appending -----

  /** Appending, given what is known of the bucket: on a flat bucket by an append; on a
      hierarchical one by writing the same bytes at the same offset of the same object, and
      reporting where that write ended.  Here the error of the HEAD is passed on. */
  predicate AnswersAppend(server: Server, head: Result<BucketType>, input: AppendInput, r: Result<Appended>) {
    match head
    case Err(e) => r == Err(e)
    case Ok(FNS) => r == server.appendTo(input)
    case Ok(HNS) =>
      var m := server.modifyAt(ModifyInput(input.bucket, input.key, input.offset, input.chunked, input.contentLength, input.preHashCrc64));
      && (m.Err? ==> r == Err(m.error))
      && (m.Ok? ==>
            && r.Ok? && r.value.nextAppendOffset == m.value.nextModifyOffset
            && r.value.statusCode == m.value.statusCode && r.value.requestId == m.value.requestId
            && r.value.contentLength == m.value.contentLength && r.value.crc64 == m.value.crc64
            && r.value.crc32 == m.value.crc32 && r.value.lastModified == m.value.lastModified)
  }

  // ----- what the cache may be trusted with -----

  /** Which type a bucket has at which time. */
  type History = (string, int) -> BucketType

  /** Every entry was true when it was written. */
  ghost predicate Truthful(c: Cache, h: History, now: int) {
    forall b :: b in c ==> c[b].timeout == TIMEOUT && c[b].writtenAt <= now && c[b].bucketType == h(b, c[b].writtenAt)
  }

  ghost predicate Honest(server: Server, h: History, now: int) {
    forall b :: server.headBucket(b).Ok? ==> server.headBucket(b).value == h(b, now)
  }

  ghost predicate Immutable(h: History) {
    forall b, t, t' :: h(b, t) == h(b, t')
  }

  /** The bucket had this type less than fifteen minutes ago. */
  ghost predicate Recent(h: History, bucket: string, now: int, t: BucketType) {
    exists at :: now - 15 * 60 * 1_000_000_000 < at <= now && h(bucket, at) == t
  }

  /** Younger than fifteen minutes, to the nanosecond. */
  predicate IsYoung(c: Cache, bucket: string, now: int) {
    bucket in c && now - c[bucket].writtenAt < 15 * 60 * 1_000_000_000
  }

  /** Comparing whole seconds is comparing exactly: an entry is usable as long as it is young. */
  lemma UsableIsYounger(c: Cache, bucket: string, now: int)
    requires bucket in c ==> c[bucket].timeout == TIMEOUT
    ensures Usable(c, bucket, now) <==> IsYoung(c, bucket, now)
  {
    if bucket in c {
      var age := now - c[bucket].writtenAt;
      if age >= 0 {
        assert age == SECOND * (age / SECOND) + age % SECOND;
      }
    }
  }

  lemma UsableIsRecent(c: Cache, h: History, bucket: string, now: int)
    requires Truthful(c, h, now) && Usable(c, bucket, now)
    ensures Recent(h, bucket, now, c[bucket].bucketType)
  {
    UsableIsYounger(c, bucket, now);
    assert h(bucket, c[bucket].writtenAt) == c[bucket].bucketType;
  }

  /** With immutable types the cache cannot be seen: what it knows is what HEAD would say. */
  lemma ImmutableTypesHideCache(server: Server, h: History, bucket: string, now: int, later: int, cached: Option<BucketType>)
    requires Immutable(h) && Honest(server, h, later)
    requires cached.Some? ==> Recent(h, bucket, now, cached.value)
    requires server.headBucket(bucket).Ok?
    ensures Known(server, bucket, cached) == server.headBucket(bucket)
  {
    if cached.Some? {
      var at :| now - 15 * 60 * 1_000_000_000 < at <= now && h(bucket, at) == cached.value;
      assert h(bucket, at) == h(bucket, later);
    }
  }

  // ----- the client -----

  class AsyncClient {
    var bucketCache: Cache
    ghost var requests: seq<Request>   // sent by getFileStatus so far
    const statFallback: bool

    constructor (statFallback: bool)
      ensures bucketCache == map[] && requests == [] && this.statFallback == statFallback
    {
      bucketCache := map[];
      requests := [];
      this.statFallback := statFallback;
    }

    /** What an operation may go by: a recent cached type, or else the answer to its HEAD. */
    ghost predicate GoesBy(server: Server, h: History, bucket: string, now: int, before: Cache, head: Result<BucketType>)
    {
      if IsYoung(before, bucket, now) then head == Ok(before[bucket].bucketType) && Recent(h, bucket, now, head.value)
      else head == server.headBucket(bucket)
    }

    /** Exactly the answer of a HEAD that had to be sent and was put is new in the cache. */
    ghost function CacheAfter(server: Server, bucket: string, now: int, later: int, putSucceeds: bool, before: Cache): Cache {
      var head := server.headBucket(bucket);
      if IsYoung(before, bucket, now) || head.Err? || !putSucceeds then before
      else before[bucket := Entry(head.value, later, 15 * 60)]
    }

    method Lookup(bucket: string, now: int, ghost h: History) returns (t: Option<BucketType>)
      requires Truthful(bucketCache, h, now)
      ensures t.Some? <==> IsYoung(bucketCache, bucket, now)
      ensures t.Some? ==> t.value == bucketCache[bucket].bucketType && Recent(h, bucket, now, t.value)
    {
      t := None;
      UsableIsYounger(bucketCache, bucket, now);
      if bucket in bucketCache {
        var e := bucketCache[bucket];
        if AgeInSeconds(e, now) < e.timeout {
          UsableIsRecent(bucketCache, h, bucket, now);
          t := Some(e.bucketType);
        }
      }
    }

    /** Only the answer of a HEAD is remembered, if the put succeeds. */
    method Remember(bucket: string, t: BucketType, now: int, putSucceeds: bool, ghost h: History)
      requires Truthful(bucketCache, h, now) && t == h(bucket, now)
      modifies this`bucketCache
      ensures Truthful(bucketCache, h, now)
      ensures bucketCache == if putSucceeds then old(bucketCache)[bucket := Entry(t, now, TIMEOUT)] else old(bucketCache)
    {
      if putSucceeds {
        bucketCache := bucketCache[bucket := Entry(t, now, TIMEOUT)];
      }
    }

    /** `now` is when the cache is read, `later` when a HEAD is answered. */
    method GetBucketType(server: Server, bucket: string, now: int, later: int, putSucceeds: bool, ghost h: History)
        returns (head: Result<BucketType>)
      requires now <= later && Truthful(bucketCache, h, now) && Honest(server, h, later)
      modifies this
      ensures Truthful(bucketCache, h, later)
      ensures GoesBy(server, h, bucket, now, old(bucketCache), head)
      ensures Immutable(h) && server.headBucket(bucket).Ok? ==> head == server.headBucket(bucket)
      ensures bucketCache == CacheAfter(server, bucket, now, later, putSucceeds, old(bucketCache))
    {
      var t := Lookup(bucket, now, h);
      head := Known(server, bucket, t);
      if Immutable(h) && server.headBucket(bucket).Ok? {
        ImmutableTypesHideCache(server, h, bucket, now, later, t);
      }
      if t.None? && head.Ok? {
        Remember(bucket, head.value, later, putSucceeds, h);
      }
    }

    /** Append routing: whatever the cache holds and whether or not the put succeeds, the
        result is that of the direct decision. */
    method AppendObject(server: Server, input: AppendInput, now: int, later: int, putSucceeds: bool, ghost h: History)
        returns (r: Result<Appended>, ghost head: Result<BucketType>)
      requires now <= later && Truthful(bucketCache, h, now) && Honest(server, h, later)
      modifies this
      ensures Truthful(bucketCache, h, later)
      ensures bucketCache == CacheAfter(server, input.bucket, now, later, putSucceeds, old(bucketCache))
      ensures GoesBy(server, h, input.bucket, now, old(bucketCache), head) && AnswersAppend(server, head, input, r)
      ensures Immutable(h) && server.headBucket(input.bucket).Ok? ==>
                AnswersAppend(server, server.headBucket(input.bucket), input, r)
    {
      var t := GetBucketType(server, input.bucket, now, later, putSucceeds, h);
      head := t;
      match t {
        case Err(e) => r := Err(e);
        case Ok(HNS) =>
          var modifyInput := ModifyInput(input.bucket, input.key, input.offset, input.chunked, input.contentLength, input.preHashCrc64);
          r := OnModified(server.modifyAt(modifyInput));
        case Ok(FNS) => r := server.appendTo(input);
      }
    }

    /** The callback of the modify request. */
    method OnModified(m: Result<Modified>) returns (r: Result<Appended>)
      ensures m.Err? ==> r == Err(m.error)
      ensures m.Ok? ==> r == Ok(Appended(m.value.statusCode, m.value.requestId, m.value.contentLength, m.value.crc64,
                                         m.value.crc32, m.value.lastModified, m.value.nextModifyOffset))
    {
      match m {
        case Err(e) => r := Err(e);
        case Ok(v) =>
          r := Ok(Appended(v.statusCode, v.requestId, v.contentLength, v.crc64, v.crc32, v.lastModified, v.nextModifyOffset));
      }
    }

    /** File status, through the coordinator: the same, except that an error of the HEAD
        becomes the generic error of a stopped run. */
    method GetFileStatus(server: Server, bucket: string, key: string, now: int, later: int, putSucceeds: bool, ghost h: History)
        returns (r: Result<FileStatus>, ghost head: Result<BucketType>, ghost sent: seq<Request>)
      requires now <= later && Truthful(bucketCache, h, now) && Honest(server, h, later)
      modifies this
      ensures Truthful(bucketCache, h, later)
      ensures bucketCache == CacheAfter(server, bucket, now, later, putSucceeds, old(bucketCache))
      ensures GoesBy(server, h, bucket, now, old(bucketCache), head)
      ensures AnswersStatus(server, statFallback, head, bucket, key, sent, r)
      ensures Immutable(h) && server.headBucket(bucket).Ok? ==>
                AnswersStatus(server, statFallback, server.headBucket(bucket), bucket, key, sent, r)
      ensures requests == old(requests) + (if IsYoung(old(bucketCache), bucket, now) then [] else [HeadBucket(bucket)]) + sent
    {
      var t := Lookup(bucket, now, h);
      head := Known(server, bucket, t);
      ghost var all;
      r, all, sent := RunStatusScript(server, bucket, key, t);
      requests := requests + all;
      if Immutable(h) && server.headBucket(bucket).Ok? {
        ImmutableTypesHideCache(server, h, bucket, now, later, t);
      }
      if t.None? && server.headBucket(bucket).Ok? {
        Remember(bucket, server.headBucket(bucket).value, later, putSucceeds, h);
      }
    }

    /** Builds the coordinator, runs it, and takes what it delivers. */
    method RunStatusScript(server: Server, bucket: string, key: string, cached: Option<BucketType>)
        returns (r: Result<FileStatus>, ghost all: seq<Request>, ghost sent: seq<Request>)
      ensures all == (if cached.Some? then [] else [HeadBucket(bucket)]) + sent
      ensures AnswersStatus(server, statFallback, Known(server, bucket, cached), bucket, key, sent, r)
    {
      var probe := ProbeOf(cached);
      var base := () => Outcome(CACHE_PROBE, Ok(probe));
      var script := StatusScript(server, statFallback, bucket, key);
      var coord := BuildAndRun(base, CACHE_PROBE, script, FILE_STATUS, true);
      var final := coord.delivered[0];
      all := Sent(server, statFallback, bucket, key, coord.started);
      ScriptIsDecision(server, statFallback, bucket, key, cached);
      ghost var s, r' :|
        && final == NotifyStatus(r').result
        && all == (if cached.Some? then [] else [HeadBucket(bucket)]) + s
        && AnswersStatus(server, statFallback, Known(server, bucket, cached), bucket, key, s, r');
      sent := s;
      r := match final case Ok(v) => Ok(v.status) case Err(e) => Err(e);
      assert r == r';
    }
  }
}
