/** How jobs are laid out in the Redis hash, and what comes back out of it. */
module StoreEncoding {
  import opened Support
  import opened HandlerModel
  import opened HandlerProperties
  import JsonStrings

  // ── fields and identities ─────────────────────────────────────────────

  /** The hash field of a job. */
  function KeyToString(key: JobKey): string {
    JsonStrings.Encode([key.room, key.identity])
  }

  lemma {:induction false} KeysNeverShareAField(k: JobKey, l: JobKey)
    ensures KeyToString(k) == KeyToString(l) <==> k == l
  {
    var a, b := [k.room, k.identity], [l.room, l.identity];
    JsonStrings.Injective(a, b);
    assert a == b ==> a[0] == b[0] && a[1] == b[1];
  }

  /** What is hashed into a room alias. */
  function RoomAliasInput(room: string, slot: string): string {
    JsonStrings.Encode([room, slot])
  }

  /** What is hashed into an identity. */
  function IdentityInput(user: string, member: string): string {
    JsonStrings.Encode([user, member])
  }

  /** What is hashed into a legacy identity. */
  function LegacyIdentityInput(user: string, device: string, member: string): string {
    JsonStrings.Encode([user, device, member])
  }

  /**
   * Hash inputs coincide only for equal components, and those of legacy identities
   * never coincide with those of identities or room aliases.
   */
  lemma {:induction false} HashInputsAreDistinct(u: string, d: string, m: string, v: string, e: string, n: string)
    ensures IdentityInput(u, m) == IdentityInput(v, n) <==> u == v && m == n
    ensures LegacyIdentityInput(u, d, m) == LegacyIdentityInput(v, e, n) <==> u == v && d == e && m == n
    ensures LegacyIdentityInput(u, d, m) != IdentityInput(v, n)
    ensures LegacyIdentityInput(u, d, m) != RoomAliasInput(v, n)
    ensures RoomAliasInput(u, m) == RoomAliasInput(v, n) <==> u == v && m == n
  {
    var a, b := [u, m], [v, n];
    var c, f := [u, d, m], [v, e, n];
    JsonStrings.Injective(a, b);
    JsonStrings.Injective(c, f);
    JsonStrings.Injective(c, b);
    assert a == b ==> a[0] == b[0] && a[1] == b[1];
    assert c == f ==> c[0] == f[0] && c[1] == f[1] && c[2] == f[2];
  }

  /** For plain names these are the texts that other readers of the store and other services compute too. */
  lemma {:induction false} KnownTexts(a: string, b: string)
    requires JsonStrings.IsPlain(a) && JsonStrings.IsPlain(b)
    ensures KeyToString(JobKey(a, b)) == "[\"" + a + "\",\"" + b + "\"]"
    ensures RoomAliasInput(a, b) == IdentityInput(a, b) == KeyToString(JobKey(a, b))
  {
    JsonStrings.TextOfTwo(a, b);
  }

  // ── delays ────────────────────────────────────────────────────────────

  const I64: nat := 0x8000_0000_0000_0000

  /** A cast of a nanosecond count to a signed 64-bit integer. */
  function EncodeDelay(nanos: nat): (i: int)
    ensures -(I64 as int) <= i < I64
  {
    var low := nanos % (2 * I64);
    if low < I64 then low else low - 2 * I64
  }

  /** Negative counts read as zero. */
  function DecodeDelay(i: int): nat {
    if i < 0 then 0 else i
  }

  /** A delay survives exactly when it fits into 63 bits; what comes back is never later than what went in. */
  lemma {:induction false} DelayRoundTrip(nanos: nat)
    ensures DecodeDelay(EncodeDelay(nanos)) == nanos <==> nanos < I64
    ensures DecodeDelay(EncodeDelay(nanos)) <= nanos
    ensures DecodeDelay(EncodeDelay(nanos)) < I64
    ensures exists wraps: nat :: DecodeDelay(EncodeDelay(nanos)) == 0
                                 || DecodeDelay(EncodeDelay(nanos)) + wraps * 0x1_0000_0000_0000_0000 == nanos
    ensures DecodeDelay(EncodeDelay(nanos)) == 0 <==>
              nanos % 0x1_0000_0000_0000_0000 == 0 || nanos % 0x1_0000_0000_0000_0000 >= 0x8000_0000_0000_0000
  {
    assert nanos == nanos % 0x1_0000_0000_0000_0000 + (nanos / 0x1_0000_0000_0000_0000) * 0x1_0000_0000_0000_0000;
  }

  /** Delays enter the service in whole milliseconds. */
  function FromMillis(millis: nat): nat { millis * 1_000_000 }

  /** As milliseconds: the largest delay that survives is 9 223 372 036 854 ms, some 292 years. */
  lemma {:induction false} MillisRoundTrip(millis: nat)
    ensures DecodeDelay(EncodeDelay(FromMillis(millis))) == FromMillis(millis) <==> millis <= 9_223_372_036_854
  {
    DelayRoundTrip(FromMillis(millis));
  }

  /** The next delay comes back as zero, and one about twice as large as less than half a millisecond. */
  lemma {:induction false} LargeDelayIsLost()
    ensures DecodeDelay(EncodeDelay(FromMillis(9_223_372_036_855))) == 0
    ensures DecodeDelay(EncodeDelay(FromMillis(18_446_744_073_710))) == 448_384
  {
  }

  /** A delay that came out of the store is within chrono's range, so it expires when it should. */
  lemma {:induction false} DecodedDelayFitsChrono(i: int)
    requires i < I64
    ensures ChronoDelay(DecodeDelay(i)) == DecodeDelay(i)
  {
  }

  // ── the hash ──────────────────────────────────────────────────────────

  /** A hash value: the record of a job, with its delay as an integer, or text that is no such record. */
  datatype Data =
    | Record(room: string, identity: string, delay: int, rest: string, restartedAt: nat)
    | Unparseable(text: string)

  function EncodeJob(j: StoredJob): Data {
    Record(j.params.room, j.params.identity, EncodeDelay(j.params.timeout), j.params.rest, j.restartedAt)
  }

  function DecodeJob(d: Data): Option<StoredJob> {
    match d
    case Record(room, identity, delay, rest, at) =>
      if -(I64 as int) <= delay < I64
      then Some(StoredJob(Params(room, identity, DecodeDelay(delay), rest), at))
      else None
    case Unparseable(_) => None
  }

  // ── what comes back ───────────────────────────────────────────────────

  /** A job once written and read back: only its delay can change. */
  function ReloadedJob(j: StoredJob): StoredJob {
    j.(params := j.params.(timeout := DecodeDelay(EncodeDelay(j.params.timeout))))
  }

  /** It is the same job exactly when its delay fits into 63 bits of nanoseconds; reloading again changes nothing. */
  lemma {:induction false} JobRoundTrip(j: StoredJob)
    ensures DecodeJob(EncodeJob(j)) == Some(ReloadedJob(j))
    ensures ReloadedJob(j) == j <==> j.params.timeout < I64
    ensures ReloadedJob(ReloadedJob(j)) == ReloadedJob(j)
    ensures KeyOf(ReloadedJob(j).params) == KeyOf(j.params)
  {
    DelayRoundTrip(j.params.timeout);
    DelayRoundTrip(DecodeDelay(EncodeDelay(j.params.timeout)));
  }

  /** These contents once written and read back. */
  function Reloaded(c: Contents): Contents {
    map k | k in c :: ReloadedJob(c[k])
  }

  /** Nothing changes exactly when every delay fits into 63 bits of nanoseconds. */
  lemma {:induction false} ReloadedIsSame(c: Contents)
    ensures Reloaded(c) == c <==> forall k :: k in c ==> c[k].params.timeout < I64
  {
    forall k | k in c ensures Reloaded(c)[k] == c[k] <==> c[k].params.timeout < I64 { JobRoundTrip(c[k]); }
    if forall k :: k in c ==> c[k].params.timeout < I64 {
      assert forall k :: k in c ==> Reloaded(c)[k] == c[k];
    }
  }

  /** An entry whose delay came back as zero is deleted by recovery at any time, instead of being revived. */
  lemma {:induction false} LostDelayIsDropped(j: StoredJob, now: nat)
    requires DecodeDelay(EncodeDelay(j.params.timeout)) == 0
    ensures !Survives(ReloadedJob(j), now) && !IsPending(ReloadedJob(j), now)
  {
  }

  // ── the hash and the contents ─────────────────────────────────────────

  /** What the hash reads as, field by field, is these contents reloaded; other fields hold unparseable data. */
  ghost predicate Represents(fields: map<string, Data>, c: Contents) {
    && (forall k :: k in c ==> KeyToString(k) in fields && DecodeJob(fields[KeyToString(k)]) == Some(ReloadedJob(c[k])))
    && (forall f :: f in fields && DecodeJob(fields[f]).Some? ==> exists k :: k in c && f == KeyToString(k))
  }

  lemma {:induction false} SaveRepresents(fields: map<string, Data>, c: Contents, key: JobKey, job: StoredJob)
    requires Represents(fields, c)
    ensures Represents(fields[KeyToString(key) := EncodeJob(job)], c[key := job])
  {
    var f', c' := fields[KeyToString(key) := EncodeJob(job)], c[key := job];
    JobRoundTrip(job);
    forall k | k in c' ensures KeyToString(k) in f' && DecodeJob(f'[KeyToString(k)]) == Some(ReloadedJob(c'[k])) {
      KeysNeverShareAField(k, key);
    }
    forall f | f in f' && DecodeJob(f'[f]).Some? ensures exists k :: k in c' && f == KeyToString(k) {
      if f == KeyToString(key) {
        assert key in c';
      } else {
        var k :| k in c && f == KeyToString(k);
        assert k in c';
      }
    }
  }

  lemma {:induction false} DeleteRepresents(fields: map<string, Data>, c: Contents, key: JobKey)
    requires Represents(fields, c)
    ensures Represents(fields - {KeyToString(key)}, c - {key})
  {
    var f', c' := fields - {KeyToString(key)}, c - {key};
    forall k | k in c' ensures KeyToString(k) in f' && DecodeJob(f'[KeyToString(k)]) == Some(ReloadedJob(c'[k])) {
      KeysNeverShareAField(k, key);
    }
    forall f | f in f' && DecodeJob(f'[f]).Some? ensures exists k :: k in c' && f == KeyToString(k) {
      var k :| k in c && f == KeyToString(k);
      assert k in c';
    }
  }

  /** A hash that holds these contents equally holds what it reads as. */
  lemma {:induction false} ReloadedRepresents(fields: map<string, Data>, c: Contents)
    requires Represents(fields, c)
    ensures Represents(fields, Reloaded(c))
  {
    var d := Reloaded(c);
    forall k | k in d ensures KeyToString(k) in fields && DecodeJob(fields[KeyToString(k)]) == Some(ReloadedJob(d[k])) {
      JobRoundTrip(c[k]);
    }
    forall f | f in fields && DecodeJob(fields[f]).Some? ensures exists k :: k in d && f == KeyToString(k) {
      var k :| k in c && f == KeyToString(k);
      assert k in d;
    }
  }

  /** The hash after one store operation. */
  function HashOp(fields: map<string, Data>, op: StoreOp): map<string, Data> {
    match op
    case Save(key, job, _) => fields[KeyToString(key) := EncodeJob(job)]
    case Delete(key) => fields - {KeyToString(key)}
  }

  lemma {:induction false} OpRepresents(fields: map<string, Data>, c: Contents, op: StoreOp)
    requires Represents(fields, c)
    ensures Represents(HashOp(fields, op), ApplyOp(c, op))
  {
    match op
    case Save(key, job, _) => SaveRepresents(fields, c, key, job);
    case Delete(key) => DeleteRepresents(fields, c, key);
  }

  /** `order` names each readable field once, and `jobs` is what they hold. */
  ghost predicate IsReading(jobs: seq<StoredJob>, order: seq<string>, fields: map<string, Data>) {
    && |jobs| == |order|
    && (forall i :: 0 <= i < |order| ==> order[i] in fields && DecodeJob(fields[order[i]]) == Some(jobs[i]))
    && (forall i, k :: 0 <= i < k < |order| ==> order[i] != order[k])
    && (forall f :: f in fields && DecodeJob(fields[f]).Some? ==> f in order)
  }

  lemma {:induction false} ReadsOwnKey(jobs: seq<StoredJob>, order: seq<string>, fields: map<string, Data>,
      c: Contents, i: nat)
    requires IsReading(jobs, order, fields) && Represents(fields, c) && WellKeyed(c) && i < |jobs|
    ensures var key := KeyOf(jobs[i].params);
            key in c && order[i] == KeyToString(key) && jobs[i] == Reloaded(c)[key]
  {
    assert order[i] in fields && DecodeJob(fields[order[i]]).Some?;
    var k :| k in c && order[i] == KeyToString(k);
    JobRoundTrip(c[k]);
  }

  lemma {:induction false} ReadsEveryKey(jobs: seq<StoredJob>, order: seq<string>, fields: map<string, Data>,
      c: Contents, k: JobKey) returns (i: nat)
    requires IsReading(jobs, order, fields) && Represents(fields, c) && WellKeyed(c) && k in c
    ensures i < |jobs| && KeyOf(jobs[i].params) == k
  {
    assert KeyToString(k) in order;
    i :| 0 <= i < |order| && order[i] == KeyToString(k);
    ReadsOwnKey(jobs, order, fields, c, i);
    KeysNeverShareAField(k, KeyOf(jobs[i].params));
  }

  /** What is read from a hash that holds these contents is each of them once, delays apart. */
  lemma {:induction false} ReadingLists(jobs: seq<StoredJob>, order: seq<string>, fields: map<string, Data>,
      c: Contents)
    requires IsReading(jobs, order, fields) && Represents(fields, c) && WellKeyed(c)
    ensures Lists(jobs, Reloaded(c)) && |jobs| == |Reloaded(c)|
  {
    forall i | 0 <= i < |jobs|
      ensures KeyOf(jobs[i].params) in c && order[i] == KeyToString(KeyOf(jobs[i].params))
      ensures jobs[i] == Reloaded(c)[KeyOf(jobs[i].params)]
    {
      ReadsOwnKey(jobs, order, fields, c, i);
    }
    var keys := set i | 0 <= i < |jobs| :: KeyOf(jobs[i].params);
    forall k | k in c ensures k in keys {
      var i := ReadsEveryKey(jobs, order, fields, c, k);
    }
    DistinctKeys(jobs);
    assert keys == Reloaded(c).Keys;
    assert |Reloaded(c).Keys| == |Reloaded(c)|;
  }

  /** The Redis hash of jobs. */
  class RedisStore {
    var fields: map<string, Data>

    /** Overwrites any entry under the same key. */
    method SaveJob(key: JobKey, job: StoredJob)
      modifies this
      ensures fields == old(fields)[KeyToString(key) := EncodeJob(job)]
      ensures forall c :: Represents(old(fields), c) ==> Represents(fields, c[key := job])
    {
      ghost var before := fields;
      fields := fields[KeyToString(key) := EncodeJob(job)];
      forall c | Represents(before, c) ensures Represents(fields, c[key := job]) {
        SaveRepresents(before, c, key, job);
      }
    }

    /** A missing entry is not an error. */
    method DeleteJob(key: JobKey)
      modifies this
      ensures fields == old(fields) - {KeyToString(key)}
      ensures forall c :: Represents(old(fields), c) ==> Represents(fields, c - {key})
    {
      ghost var before := fields;
      fields := fields - {KeyToString(key)};
      forall c | Represents(before, c) ensures Represents(fields, c - {key}) {
        DeleteRepresents(before, c, key);
      }
    }

    /** Every entry that can be read, in any order; the others are skipped. */
    method AllJobs() returns (jobs: seq<StoredJob>, ghost order: seq<string>)
      ensures IsReading(jobs, order, fields)
      ensures forall c :: Represents(fields, c) && WellKeyed(c)
                ==> Lists(jobs, Reloaded(c)) && |jobs| == |Reloaded(c)|
    {
      jobs, order := [], [];
      var todo := fields.Keys;
      while todo != {}
        invariant todo <= fields.Keys
        invariant |jobs| == |order|
        invariant forall i :: 0 <= i < |order| ==>
          order[i] in fields && order[i] !in todo && DecodeJob(fields[order[i]]) == Some(jobs[i])
        invariant forall i, k :: 0 <= i < k < |order| ==> order[i] != order[k]
        invariant forall f :: f in fields && f !in todo && DecodeJob(fields[f]).Some? ==> f in order
        decreases todo
      {
        var field :| field in todo;
        todo := todo - {field};
        match DecodeJob(fields[field])
        case Some(job) => {
          jobs := jobs + [job];
          order := order + [field];
        }
        case None => {}
      }
      forall c | Represents(fields, c) && WellKeyed(c)
        ensures Lists(jobs, Reloaded(c)) && |jobs| == |Reloaded(c)|
      {
        ReadingLists(jobs, order, fields, c);
      }
    }
  }
}
