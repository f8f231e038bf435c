/**
 * The bbolt-backed store (store.go). The database is three buckets of JSON
 * values: the habit template under meta/habits, the day records and the
 * daily summaries, both keyed by the YYMMDD date. JSON is abstracted to a
 * faithful encoding: a stored value is either the encoding of a value, an
 * empty byte slice, or bytes that do not decode.
 *
 * Every db.Update is one atomic step: its body is a pure function from the
 * old contents to a result and the new contents (a Txn); Commit applies it,
 * rolling back when the body fails or the commit itself fails.
 */
module Storage {
  import opened Results
  import opened Time
  import opened Habits

  datatype Blob<+T> = Empty | Encoded(value: T) | Malformed

  const MetaBucket := "meta"
  const RecordsBucket := "dailyRecords"
  const SummariesBucket := "dailySummaries"
  const TemplateKey := "habits"

  /** The contents of the three buckets. */
  datatype Db = Db(
    meta: map<string, Blob<seq<Habit>>>,
    records: map<string, Blob<seq<Habit>>>,
    summaries: map<string, Blob<Summary>>)

  /** The outcome of a transaction body: its result and the contents it leaves. */
  datatype Txn<+T> = Txn(result: Result<T>, after: Db)

  /** get (store.go:166-175): a missing key or an empty value leaves the target as it was. */
  function Get<T>(bucket: map<string, Blob<T>>, key: string, target: T): (r: Result<T>)
    ensures key !in bucket || bucket[key] == Empty ==> r == Ok(target)
    ensures key in bucket && bucket[key].Encoded? ==> r == Ok(bucket[key].value)
    ensures key in bucket && bucket[key] == Malformed ==> r == Err(DecodeFailed)
  {
    if key !in bucket then Ok(target)
    else match bucket[key]
      case Empty => Ok(target)
      case Encoded(v) => Ok(v)
      case Malformed => Err(DecodeFailed)
  }

  /** put (store.go:155-164): the key holds the encoding of v and every other key keeps its value. */
  function Put<T>(bucket: map<string, Blob<T>>, key: string, v: T): (r: map<string, Blob<T>>)
    ensures key in r && r[key] == Encoded(v)
    ensures forall k :: k != key ==> (k in r <==> k in bucket)
    ensures forall k :: k != key && k in bucket ==> r[k] == bucket[k]
  {
    bucket[key := Encoded(v)]
  }

  /** What put writes, get reads back; other keys read as before. */
  lemma GetPut<T>(bucket: map<string, Blob<T>>, key: string, v: T, other: string, target: T)
    ensures Get(Put(bucket, key, v), key, target) == Ok(v)
    ensures other != key ==> Get(Put(bucket, key, v), other, target) == Get(bucket, other, target)
  {
  }

  /**
   * Whether encoding/json can encode a summary: PctCompl is the float32
   * quotient NumCompl / length, and for an empty list that is 0/0, a NaN,
   * which json.Marshal rejects (main.go:58, store.go:156-158).
   */
  predicate Encodable(s: Summary)
  {
    s.pctCompl.den != 0
  }

  /** Only the summary of an empty list cannot be encoded. */
  lemma EncodableIffNonEmpty(list: seq<Habit>)
    ensures Encodable(SummaryOf(list)) <==> |list| > 0
  {
  }

  /** The template list as getHabits reads it (store.go:79-87). */
  function TemplateOf(db: Db): Result<seq<Habit>>
  {
    Get(db.meta, TemplateKey, [])
  }

  /** A db.Update: a failing body rolls back, and so does a failing commit. */
  function Commit<T>(db: Db, body: Txn<T>, commits: bool): (t: Txn<T>)
    ensures t.result.Ok? <==> body.result.Ok? && commits
    ensures t.after == (if t.result.Ok? then body.after else db)
    ensures t.result.Ok? ==> t.result == body.result
    ensures body.result.Err? ==> t.result == body.result
  {
    if body.result.Err? then Txn(body.result, db)
    else if commits then body
    else Txn(Err(WriteFailed), db)
  }

  /** The habit is active on the day starting at t: created strictly before it and not deleted by then (store.go:118). */
  predicate ActiveOn(h: Habit, t: Instant)
  {
    h.createdAt < t && (h.deletedAt == Zero || h.deletedAt > t)
  }

  /** The day record backfilled from a template: its active habits, in order, each with CreatedAt set to now. */
  function Backfill(template: seq<Habit>, t: Instant, now: Instant): seq<Habit>
  {
    if template == [] then []
    else (if ActiveOn(template[0], t) then [template[0].(createdAt := now)] else [])
         + Backfill(template[1..], t, now)
  }

  /** Backfilling distributes over concatenation, so it keeps the template's order. */
  lemma {:induction false} BackfillAppend(a: seq<Habit>, b: seq<Habit>, t: Instant, now: Instant)
    ensures Backfill(a + b, t, now) == Backfill(a, t, now) + Backfill(b, t, now)
  {
    if a == [] {
      assert a + b == b;
    } else {
      assert (a + b)[1..] == a[1..] + b;
      BackfillAppend(a[1..], b, t, now);
    }
  }

  /** A backfilled record holds exactly the copies of the active template habits, with CreatedAt replaced by now and every other field kept. */
  lemma {:induction false} BackfillMembers(template: seq<Habit>, t: Instant, now: Instant, h: Habit)
    ensures h in Backfill(template, t, now) <==>
            exists g :: g in template && ActiveOn(g, t) && h == g.(createdAt := now)
    ensures |Backfill(template, t, now)| <= |template|
  {
    if template != [] {
      BackfillMembers(template[1..], t, now, h);
      assert forall g :: g in template <==> g == template[0] || g in template[1..];
    }
  }

  /** The backfill loop of getHabitsForDay (store.go:117-122). */
  method BackfillRecord(template: seq<Habit>, t: Instant, now: Instant) returns (items: seq<Habit>)
    ensures items == Backfill(template, t, now)
  {
    items := [];
    for i := 0 to |template|
      invariant items == Backfill(template[..i], t, now)
    {
      var h := template[i];
      BackfillAppend(template[..i], [h], t, now);
      assert template[..i + 1] == template[..i] + [h];
      if ActiveOn(h, t) {
        h := h.(createdAt := now);
        items := items + [h];
      }
    }
    assert template[..|template|] == template;
  }

  /** The body of getHabitsForDay's transaction, with its date checks (store.go:99-133). */
  function DayBody(db: Db, fmtDate: string, now: Instant, cal: Calendar): Txn<seq<Habit>>
  {
    match cal.parse(fmtDate)
    case None => Txn(Err(BadDate), db)
    case Some(t) =>
      if t > now then Txn(Err(FutureDate), db)
      else if fmtDate !in db.records then
        match TemplateOf(db)
        case Err(e) => Txn(Err(e), db)
        case Ok(template) =>
          var items := Backfill(template, t, now);
          Txn(Ok(items), db.(records := Put(db.records, fmtDate, items)))
      else Txn(Get(db.records, fmtDate, []), db)
  }

  /**
   * The body of putHabitsForDay's transaction: the record and its summary
   * together (store.go:135-149). A summary that cannot be encoded fails the
   * body, which undoes the record already put.
   */
  function PutDayBody(db: Db, fmtDate: string, items: seq<Habit>): Txn<()>
  {
    var summary := SummaryOf(items);
    if !Encodable(summary) then Txn(Err(EncodeFailed), db)
    else Txn(Ok(()), db.(records := Put(db.records, fmtDate, items),
                         summaries := Put(db.summaries, fmtDate, summary)))
  }

  /** Every stored summary belongs to a stored record and is the summary of that record. */
  ghost predicate SummariesMatchRecords(db: Db)
  {
    forall k :: k in db.summaries ==>
      k in db.records && db.records[k].Encoded? && db.summaries[k] == Encoded(SummaryOf(db.records[k].value))
  }

  /** Backfilling and reading a day keep summaries consistent: backfill writes no summary, and only where no record (hence no summary) existed. */
  lemma DayBodyKeepsSummaries(db: Db, fmtDate: string, now: Instant, cal: Calendar, commits: bool)
    requires SummariesMatchRecords(db)
    ensures SummariesMatchRecords(Commit(db, DayBody(db, fmtDate, now, cal), commits).after)
    ensures Commit(db, DayBody(db, fmtDate, now, cal), commits).after.summaries == db.summaries
  {
  }

  /**
   * Writing a day keeps summaries consistent; a committed write of a
   * non-empty list stores its summary and reads back unchanged, and writing
   * an empty list fails to encode its summary and writes nothing.
   */
  lemma PutDayKeepsSummaries(db: Db, fmtDate: string, items: seq<Habit>, commits: bool)
    requires SummariesMatchRecords(db)
    ensures var t := Commit(db, PutDayBody(db, fmtDate, items), commits);
            SummariesMatchRecords(t.after) &&
            (t.result.Ok? <==> commits && |items| > 0) &&
            (|items| == 0 ==> t == Txn(Err(EncodeFailed), db)) &&
            (t.result.Ok? ==> t.after.summaries[fmtDate] == Encoded(SummaryOf(items)) &&
                              Get(t.after.records, fmtDate, []) == Ok(items))
  {
  }

  /**
   * Backfill is idempotent: once a backfill has been committed, a second
   * lookup of the same date, at the same or a later instant, returns the same
   * record and writes nothing.
   */
  lemma {:induction false} BackfillIdempotent(db: Db, fmtDate: string, now: Instant, later: Instant, cal: Calendar, commits: bool)
    requires now <= later
    requires Commit(db, DayBody(db, fmtDate, now, cal), commits).result.Ok?
    ensures var first := Commit(db, DayBody(db, fmtDate, now, cal), commits);
            DayBody(first.after, fmtDate, later, cal) == Txn(first.result, first.after)
  {
    var first := Commit(db, DayBody(db, fmtDate, now, cal), commits);
    var t := cal.parse(fmtDate).value;
    if fmtDate !in db.records {
      var items := Backfill(TemplateOf(db).value, t, now);
      assert first.after.records[fmtDate] == Encoded(items);
    }
  }

  /** The keys a ForEach over the summaries visits before it stops at the first value that does not decode. */
  function DecodedPrefix(sums: map<string, Blob<Summary>>, order: seq<string>): (n: nat)
    ensures n <= |order|
    ensures forall i :: 0 <= i < n ==> order[i] in sums && sums[order[i]].Encoded?
    ensures n < |order| ==> !(order[n] in sums && sums[order[n]].Encoded?)
  {
    if order == [] || !(order[0] in sums && sums[order[0]].Encoded?) then 0
    else 1 + DecodedPrefix(sums, order[1..])
  }

  /** The summaries getSummaries returns: those decoded before the first bad entry. */
  function Scanned(sums: map<string, Blob<Summary>>, order: seq<string>): map<string, Summary>
  {
    var n := DecodedPrefix(sums, order);
    map k | k in order[..n] :: sums[k].value
  }

  /** When every stored summary decodes, getSummaries returns all of them. */
  lemma ScannedAll(sums: map<string, Blob<Summary>>, order: seq<string>)
    requires forall k :: k in order <==> k in sums
    requires forall k :: k in sums ==> sums[k].Encoded?
    ensures Scanned(sums, order) == map k | k in sums :: sums[k].value
  {
    var n := DecodedPrefix(sums, order);
    assert order[..n] == order;
  }

  /** A database file as bbolt.Open finds it: the buckets present and their contents. */
  datatype DbFile = DbFile(buckets: set<string>, db: Db)

  class Store {
    var buckets: set<string>
    var meta: map<string, Blob<seq<Habit>>>
    var dailyRecords: map<string, Blob<seq<Habit>>>
    var dailySummaries: map<string, Blob<Summary>>

    /** The three buckets exist, as openStore guarantees before handing out a store. */
    ghost predicate Valid()
      reads this
    {
      MetaBucket in buckets && RecordsBucket in buckets && SummariesBucket in buckets
    }

    function Contents(): Db
      reads this
    {
      Db(meta, dailyRecords, dailySummaries)
    }

    /** bbolt.Open of a file (store.go:43). */
    constructor Open(file: DbFile)
      ensures buckets == file.buckets && Contents() == file.db
    {
      buckets := file.buckets;
      meta, dailyRecords, dailySummaries := file.db.meta, file.db.records, file.db.summaries;
    }

    /**
     * Bucket initialisation (store.go:47-57): when meta exists nothing
     * changes; otherwise meta, dailyRecords and dailySummaries are created in
     * that order, and creating one that already exists fails and rolls back.
     */
    method InitBuckets(commits: bool) returns (err: Option<Error>)
      modifies this
      ensures MetaBucket in old(buckets) ==>
                unchanged(this) && err == (if commits then None else Some(WriteFailed))
      ensures MetaBucket !in old(buckets) && (RecordsBucket in old(buckets) || SummariesBucket in old(buckets)) ==>
                unchanged(this) && err == Some(BucketExists)
      ensures MetaBucket !in old(buckets) && RecordsBucket !in old(buckets) && SummariesBucket !in old(buckets) ==>
                if commits then
                  err == None && buckets == old(buckets) + {MetaBucket, RecordsBucket, SummariesBucket} &&
                  Contents() == Db(map[], map[], map[])
                else unchanged(this) && err == Some(WriteFailed)
      ensures err == None ==> MetaBucket in buckets && (Valid() <==> MetaBucket !in old(buckets) || old(Valid()))
    {
      if MetaBucket in buckets {
        err := if commits then None else Some(WriteFailed);
        return;
      }
      var names := [MetaBucket, RecordsBucket, SummariesBucket];
      var created := buckets;
      for i := 0 to |names|
        invariant forall x :: x in created <==> x in buckets || x in names[..i]
        invariant forall j :: 0 <= j < i ==> names[j] !in buckets
      {
        if names[i] in created {
          return Some(BucketExists);
        }
        created := created + {names[i]};
      }
      assert names[1] !in buckets && names[2] !in buckets;
      assert names[..3] == names;
      assert created == buckets + {MetaBucket, RecordsBucket, SummariesBucket};
      if !commits {
        return Some(WriteFailed);
      }
      buckets := created;
      meta, dailyRecords, dailySummaries := map[], map[], map[];
      err := None;
    }

    /** getHabits (store.go:79-87): a read transaction. */
    method GetHabits() returns (r: Result<seq<Habit>>)
      requires Valid()
      ensures r == TemplateOf(Contents())
      ensures TemplateKey !in meta || meta[TemplateKey] == Empty ==> r == Ok([])
      ensures TemplateKey in meta && meta[TemplateKey].Encoded? ==> r == Ok(meta[TemplateKey].value)
      ensures TemplateKey in meta && meta[TemplateKey] == Malformed ==> r == Err(DecodeFailed)
    {
      r := Get(meta, TemplateKey, []);
    }

    /** putHabits (store.go:89-97): the template is replaced wholesale, and getHabits then reads it back. */
    method PutHabits(items: seq<Habit>, commits: bool) returns (err: Option<Error>)
      requires Valid()
      modifies this
      ensures Valid() && buckets == old(buckets)
      ensures dailyRecords == old(dailyRecords) && dailySummaries == old(dailySummaries)
      ensures meta == if commits then old(meta)[TemplateKey := Encoded(items)] else old(meta)
      ensures err == if commits then None else Some(WriteFailed)
      ensures commits ==> TemplateOf(Contents()) == Ok(items)
    {
      if !commits {
        return Some(WriteFailed);
      }
      meta := Put(meta, TemplateKey, items);
      err := None;
    }

    /**
     * getHabitsForDay (store.go:99-133): rejects a bad or future date without
     * touching the database; returns a stored record as it is; otherwise
     * backfills a record from the template and stores it, writing no summary.
     */
    method GetHabitsForDay(fmtDate: string, now: Instant, cal: Calendar, commits: bool) returns (r: Result<seq<Habit>>)
      requires Valid()
      modifies this
      ensures Valid() && buckets == old(buckets)
      ensures Txn(r, Contents()) == Commit(old(Contents()), DayBody(old(Contents()), fmtDate, now, cal), commits)
    {
      var parsed := cal.parse(fmtDate);
      if parsed.None? {
        return Err(BadDate);
      }
      var t := parsed.value;
      if t > now {
        return Err(FutureDate);
      }
      if fmtDate !in dailyRecords {
        var template := Get(meta, TemplateKey, []);
        if template.Err? {
          return Err(template.error);
        }
        var items := BackfillRecord(template.value, t, now);
        if !commits {
          return Err(WriteFailed);
        }
        dailyRecords := Put(dailyRecords, fmtDate, items);
        return Ok(items);
      }
      r := Get(dailyRecords, fmtDate, []);
      if r.Ok? && !commits {
        r := Err(WriteFailed);
      }
    }

    /**
     * putHabitsForDay (store.go:135-149): the record and its recomputed
     * summary, written together or not at all; the summary of an empty list
     * cannot be encoded, so such a write always fails.
     */
    method PutHabitsForDay(fmtDate: string, items: seq<Habit>, commits: bool) returns (err: Option<Error>)
      requires Valid()
      modifies this
      ensures Valid() && buckets == old(buckets)
      ensures Contents() == Commit(old(Contents()), PutDayBody(old(Contents()), fmtDate, items), commits).after
      ensures err == if |items| == 0 then Some(EncodeFailed) else if commits then None else Some(WriteFailed)
      ensures err == None ==> dailySummaries[fmtDate] == Encoded(SummaryOf(items)) && dailyRecords[fmtDate] == Encoded(items)
      ensures err != None ==> Contents() == old(Contents())
    {
      var summary := NewSummaryOfList(items);
      if !Encodable(summary) {
        return Some(EncodeFailed);
      }
      if !commits {
        return Some(WriteFailed);
      }
      dailyRecords := Put(dailyRecords, fmtDate, items);
      dailySummaries := Put(dailySummaries, fmtDate, summary);
      err := None;
    }

    /**
     * getSummaries (store.go:64-77): visits the summaries in the bucket's key
     * order, stops at the first value that does not decode, and returns what
     * it decoded before it; the ForEach error is discarded, so no error is
     * ever reported.
     */
    method GetSummaries(order: seq<string>) returns (sums: map<string, Summary>, err: Option<Error>)
      requires Valid()
      requires forall k :: k in order <==> k in dailySummaries
      ensures err == None
      ensures sums == Scanned(dailySummaries, order)
      ensures forall k :: k in sums ==> k in dailySummaries && dailySummaries[k] == Encoded(sums[k])
    {
      sums := map[];
      var n := DecodedPrefix(dailySummaries, order);
      var i := 0;
      while i < |order|
        invariant i <= n
        invariant sums == map k | k in order[..i] :: dailySummaries[k].value
      {
        var k := order[i];
        var v := dailySummaries[k];
        if !v.Encoded? {
          break;
        }
        assert order[..i + 1] == order[..i] + [k];
        sums := sums[k := v.value];
        i := i + 1;
      }
      assert i == n;
      err := None;
    }
  }

  /** openStore (store.go:31-62): opening the file, then initialising its buckets. */
  method OpenStore(file: DbFile, opens: bool, commits: bool) returns (r: Result<Store>)
    ensures !opens ==> r == Err(OpenFailed)
    ensures r.Ok? ==> fresh(r.value) && MetaBucket in r.value.buckets
    ensures r.Ok? ==> (r.value.Valid() <==>
                        MetaBucket !in file.buckets || (RecordsBucket in file.buckets && SummariesBucket in file.buckets))
    ensures opens && MetaBucket !in file.buckets && RecordsBucket !in file.buckets && SummariesBucket !in file.buckets && commits ==>
              r.Ok? && r.value.Valid() && r.value.buckets == file.buckets + {MetaBucket, RecordsBucket, SummariesBucket} &&
              r.value.Contents() == Db(map[], map[], map[])
    ensures opens && MetaBucket !in file.buckets && (RecordsBucket in file.buckets || SummariesBucket in file.buckets) ==>
              r == Err(BucketExists)
    ensures opens && !commits && (MetaBucket in file.buckets || (RecordsBucket !in file.buckets && SummariesBucket !in file.buckets)) ==>
              r == Err(WriteFailed)
    ensures opens && MetaBucket in file.buckets && commits ==>
              r.Ok? && r.value.buckets == file.buckets && r.value.Contents() == file.db
  {
    if !opens {
      return Err(OpenFailed);
    }
    var s := new Store.Open(file);
    var err := s.InitBuckets(commits);
    if err.Some? {
      return Err(err.value);
    }
    r := Ok(s);
  }
}
