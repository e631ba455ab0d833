/** The progress-history projection of the journey hook: decode the
    `ProgressRecorded` logs, keep the current journey's records of the signer,
    and order them by block (a stable sort, so equal blocks keep query order). */
module ProgressHistory {
  import opened Wrappers
  import opened Text
  import opened Events

  /** One entry of `progressLogs`. */
  datatype ProgressRecord = ProgressRecord(
    txHash: string, blockNumber: int, participant: string, dayIndex: int, reportCID: string)

  /** The per-log test: the log decodes to `ProgressRecorded` with this journey id
      and a participant equal to the signer's address up to letter case. The
      query's topic filter asks the node for `ProgressRecorded` logs only, so
      the event is taken to be that one rather than read by position. */
  predicate Matches(log: RawLog, journeyId: int, me: string) {
    && log.parse.Parsed?
    && log.parse.event.ProgressRecorded?
    && log.parse.event.journeyId == journeyId
    && SameAddress(log.parse.event.participant, me)
  }

  function RecordOf(log: RawLog): ProgressRecord
    requires log.parse.Parsed? && log.parse.event.ProgressRecorded?
  {
    var e := log.parse.event;
    ProgressRecord(log.transactionHash, log.blockNumber, e.participant, e.dayIndex, e.reportCID)
  }

  /** The callback given to `logs.map`: a record, or `undefined` for a log that
      fails to decode, decodes to `null` or belongs to someone else. */
  function Project(log: RawLog, journeyId: int, me: string): Option<ProgressRecord> {
    if Matches(log, journeyId, me) then Some(RecordOf(log)) else None
  }

  /** A log gives a record exactly when it matches; the record carries the
      log's hash and block and the event's fields unchanged (the participant in
      its own letter case), for this journey and, up to case, this signer. */
  lemma ProjectedRecord(log: RawLog, journeyId: int, me: string)
    ensures Project(log, journeyId, me).Some? <==> Matches(log, journeyId, me)
    ensures Project(log, journeyId, me).Some? ==>
      var r := Project(log, journeyId, me).value;
      && r.txHash == log.transactionHash && r.blockNumber == log.blockNumber
      && log.parse == Parsed(ProgressRecorded(journeyId, r.participant, r.dayIndex, r.reportCID))
      && SameAddress(r.participant, me)
  {
  }

  /** `logs.map(Project).filter(Boolean)`, in query order. */
  function Collect(logs: seq<RawLog>, journeyId: int, me: string): (r: seq<ProgressRecord>)
    ensures |r| <= |logs|
  {
    if logs == [] then []
    else
      var head := Project(logs[0], journeyId, me);
      (if head.Some? then [head.value] else []) + Collect(logs[1..], journeyId, me)
  }

  /** A record is collected exactly when some log matches and yields it. */
  lemma {:induction false} CollectMembership(logs: seq<RawLog>, journeyId: int, me: string, r: ProgressRecord)
    ensures r in Collect(logs, journeyId, me) <==>
      exists i | 0 <= i < |logs| :: Matches(logs[i], journeyId, me) && r == RecordOf(logs[i])
  {
    if logs != [] {
      CollectMembership(logs[1..], journeyId, me, r);
      if r in Collect(logs[1..], journeyId, me) {
        var i :| 0 <= i < |logs[1..]| && Matches(logs[1..][i], journeyId, me) && r == RecordOf(logs[1..][i]);
        assert logs[i + 1] == logs[1..][i];
      }
      forall i | 1 <= i < |logs| && Matches(logs[i], journeyId, me) && r == RecordOf(logs[i])
        ensures r in Collect(logs[1..], journeyId, me)
      {
        assert logs[1..][i - 1] == logs[i];
      }
    }
  }

  predicate SortedByBlock(s: seq<ProgressRecord>) {
    forall i, j | 0 <= i < j < |s| :: s[i].blockNumber <= s[j].blockNumber
  }

  /** The records of one block, in order. */
  function AtBlock(s: seq<ProgressRecord>, b: int): seq<ProgressRecord> {
    if s == [] then []
    else (if s[0].blockNumber == b then [s[0]] else []) + AtBlock(s[1..], b)
  }

  /** Place `x` before the first record whose block is not smaller. */
  function Insert(x: ProgressRecord, t: seq<ProgressRecord>): seq<ProgressRecord> {
    if t == [] || x.blockNumber <= t[0].blockNumber then [x] + t
    else [t[0]] + Insert(x, t[1..])
  }

  lemma {:induction false} InsertAddsOne(x: ProgressRecord, t: seq<ProgressRecord>)
    ensures multiset(Insert(x, t)) == multiset(t) + multiset{x}
  {
    if t != [] && x.blockNumber > t[0].blockNumber {
      InsertAddsOne(x, t[1..]);
      assert t == [t[0]] + t[1..];
    }
  }

  /** Every record of `s` is at block `b` or later. */
  predicate AllFrom(b: int, s: seq<ProgressRecord>) {
    forall k | 0 <= k < |s| :: b <= s[k].blockNumber
  }

  /** Prepending a record no later than all of a sorted sequence keeps it sorted. */
  lemma SortedCons(x: ProgressRecord, t: seq<ProgressRecord>)
    requires SortedByBlock(t) && AllFrom(x.blockNumber, t)
    ensures SortedByBlock([x] + t)
  {
    var r := [x] + t;
    forall i, j | 0 <= i < j < |r| ensures r[i].blockNumber <= r[j].blockNumber {
      assert r[j] == t[j - 1];
      if i > 0 { assert r[i] == t[i - 1]; }
    }
  }

  lemma AllFromTail(b: int, t: seq<ProgressRecord>)
    requires t != [] && AllFrom(b, t)
    ensures AllFrom(b, t[1..])
  {
    forall k | 0 <= k < |t[1..]| ensures b <= t[1..][k].blockNumber {
      assert t[1..][k] == t[k + 1];
    }
  }

  lemma {:induction false} InsertFrom(b: int, x: ProgressRecord, t: seq<ProgressRecord>)
    requires AllFrom(b, t) && b <= x.blockNumber
    ensures AllFrom(b, Insert(x, t))
  {
    if t == [] || x.blockNumber <= t[0].blockNumber {
      var r := [x] + t;
      forall k | 0 <= k < |r| ensures b <= r[k].blockNumber {
        if k > 0 { assert r[k] == t[k - 1]; }
      }
    } else {
      AllFromTail(b, t);
      InsertFrom(b, x, t[1..]);
      var rest := Insert(x, t[1..]);
      var r := [t[0]] + rest;
      forall k | 0 <= k < |r| ensures b <= r[k].blockNumber {
        if k > 0 { assert r[k] == rest[k - 1]; }
      }
    }
  }

  lemma SortedFrom(t: seq<ProgressRecord>)
    requires t != [] && SortedByBlock(t)
    ensures SortedByBlock(t[1..]) && AllFrom(t[0].blockNumber, t[1..])
  {
    forall k | 0 <= k < |t[1..]| ensures t[0].blockNumber <= t[1..][k].blockNumber {
      assert t[1..][k] == t[k + 1];
    }
    forall i, j | 0 <= i < j < |t[1..]| ensures t[1..][i].blockNumber <= t[1..][j].blockNumber {
      assert t[1..][i] == t[i + 1] && t[1..][j] == t[j + 1];
    }
  }

  lemma {:induction false} InsertKeepsOrder(x: ProgressRecord, t: seq<ProgressRecord>)
    requires SortedByBlock(t)
    ensures SortedByBlock(Insert(x, t))
  {
    if t == [] || x.blockNumber <= t[0].blockNumber {
      forall k | 0 <= k < |t| ensures x.blockNumber <= t[k].blockNumber {
        assert t[0].blockNumber <= t[k].blockNumber;
      }
      SortedCons(x, t);
    } else {
      SortedFrom(t);
      InsertKeepsOrder(x, t[1..]);
      InsertFrom(t[0].blockNumber, x, t[1..]);
      SortedCons(t[0], Insert(x, t[1..]));
    }
  }

  /** `parsed.sort((a, b) => a.blockNumber - b.blockNumber)`, which is stable. */
  function SortByBlock(s: seq<ProgressRecord>): seq<ProgressRecord> {
    if s == [] then [] else Insert(s[0], SortByBlock(s[1..]))
  }

  /** The sort orders by block and is a permutation. */
  lemma {:induction false} SortByBlockSpec(s: seq<ProgressRecord>)
    ensures SortedByBlock(SortByBlock(s))
    ensures multiset(SortByBlock(s)) == multiset(s)
  {
    if s != [] {
      SortByBlockSpec(s[1..]);
      InsertKeepsOrder(s[0], SortByBlock(s[1..]));
      InsertAddsOne(s[0], SortByBlock(s[1..]));
      assert s == [s[0]] + s[1..];
    }
  }

  lemma {:induction false} AtBlockInsert(x: ProgressRecord, t: seq<ProgressRecord>, b: int)
    ensures AtBlock(Insert(x, t), b) == if x.blockNumber == b then [x] + AtBlock(t, b) else AtBlock(t, b)
  {
    if t == [] || x.blockNumber <= t[0].blockNumber {
      assert ([x] + t)[1..] == t;
    } else {
      AtBlockInsert(x, t[1..], b);
      assert ([t[0]] + Insert(x, t[1..]))[1..] == Insert(x, t[1..]);
    }
  }

  /** Stability: within one block the sorted records keep their input order. */
  lemma {:induction false} SortIsStable(s: seq<ProgressRecord>, b: int)
    ensures AtBlock(SortByBlock(s), b) == AtBlock(s, b)
  {
    if s != [] {
      SortIsStable(s[1..], b);
      AtBlockInsert(s[0], SortByBlock(s[1..]), b);
    }
  }

  lemma {:induction false} AtBlockHead(s: seq<ProgressRecord>)
    requires s != []
    ensures AtBlock(s, s[0].blockNumber) != [] && AtBlock(s, s[0].blockNumber)[0] == s[0]
  {
  }

  lemma {:induction false} AtBlockNonEmpty(s: seq<ProgressRecord>, b: int)
    requires AtBlock(s, b) != []
    ensures exists i | 0 <= i < |s| :: s[i].blockNumber == b
  {
    if s[0].blockNumber != b {
      AtBlockNonEmpty(s[1..], b);
      var i :| 0 <= i < |s[1..]| && s[1..][i].blockNumber == b;
      assert s[i + 1] == s[1..][i];
    }
  }

  lemma {:induction false} AtBlockTail(s: seq<ProgressRecord>, b: int)
    requires s != []
    ensures AtBlock(s[1..], b) == if s[0].blockNumber == b then AtBlock(s, b)[1..] else AtBlock(s, b)
  {
  }

  /** The stable ascending order is unique: two block-sorted sequences with the
      same records, block by block in the same order, are equal. So the model's
      insertion sort gives exactly what any stable `Array.prototype.sort` gives. */
  lemma {:induction false} StableSortIsUnique(r1: seq<ProgressRecord>, r2: seq<ProgressRecord>)
    requires SortedByBlock(r1) && SortedByBlock(r2)
    requires forall b :: AtBlock(r1, b) == AtBlock(r2, b)
    ensures r1 == r2
    decreases |r1|
  {
    if r1 == [] {
      if r2 != [] { assert AtBlock(r1, r2[0].blockNumber) == []; AtBlockHead(r2); }
    } else if r2 == [] {
      assert AtBlock(r2, r1[0].blockNumber) == [];
      AtBlockHead(r1);
    } else {
      SameHead(r1, r2);
      SortedFrom(r1);
      SortedFrom(r2);
      forall b ensures AtBlock(r1[1..], b) == AtBlock(r2[1..], b) {
        AtBlockTail(r1, b);
        AtBlockTail(r2, b);
      }
      StableSortIsUnique(r1[1..], r2[1..]);
      assert r1 == [r1[0]] + r1[1..] && r2 == [r2[0]] + r2[1..];
    }
  }

  /** Two non-empty block-sorted sequences that agree block by block start alike. */
  lemma SameHead(r1: seq<ProgressRecord>, r2: seq<ProgressRecord>)
    requires r1 != [] && r2 != [] && SortedByBlock(r1) && SortedByBlock(r2)
    requires forall b :: AtBlock(r1, b) == AtBlock(r2, b)
    ensures r1[0] == r2[0]
  {
    var m1, m2 := r1[0].blockNumber, r2[0].blockNumber;
    AtBlockHead(r1);
    AtBlockHead(r2);
    assert AtBlock(r2, m1) == AtBlock(r1, m1);
    assert AtBlock(r1, m2) == AtBlock(r2, m2);
    AtBlockNonEmpty(r2, m1);
    AtBlockNonEmpty(r1, m2);
    var i :| 0 <= i < |r2| && r2[i].blockNumber == m1;
    var j :| 0 <= j < |r1| && r1[j].blockNumber == m2;
    assert m2 <= m1 by { if i > 0 { assert r2[0].blockNumber <= r2[i].blockNumber; } }
    assert m1 <= m2 by { if j > 0 { assert r1[0].blockNumber <= r1[j].blockNumber; } }
    assert r1[0] == AtBlock(r1, m1)[0] == AtBlock(r2, m1)[0] == r2[0];
  }

  /** What `loadProgressHistory` stores in `progressLogs`: each matching log's
      record inserted, in query order, into the sorted records of the later
      logs; `HistoryIsSortedCollect` shows this is the filter-then-sort of the
      hook. */
  function History(logs: seq<RawLog>, journeyId: int, me: string): seq<ProgressRecord> {
    if logs == [] then []
    else
      var rest := History(logs[1..], journeyId, me);
      if Matches(logs[0], journeyId, me) then Insert(RecordOf(logs[0]), rest) else rest
  }

  /** The fused definition is `Collect` followed by `SortByBlock`. */
  lemma {:induction false} HistoryIsSortedCollect(logs: seq<RawLog>, journeyId: int, me: string)
    ensures History(logs, journeyId, me) == SortByBlock(Collect(logs, journeyId, me))
  {
    if logs != [] {
      HistoryIsSortedCollect(logs[1..], journeyId, me);
      var head := Project(logs[0], journeyId, me);
      var c := Collect(logs, journeyId, me);
      if head.Some? {
        assert c == [head.value] + Collect(logs[1..], journeyId, me);
        assert c[0] == head.value && c[1..] == Collect(logs[1..], journeyId, me);
      } else {
        assert c == Collect(logs[1..], journeyId, me);
      }
    }
  }

  /** The history holds exactly the records of matching logs, never more records
      than logs, in ascending block order, and is the stable sort of the
      matching records in query order. */
  lemma HistorySpecification(logs: seq<RawLog>, journeyId: int, me: string)
    ensures |History(logs, journeyId, me)| <= |logs|
    ensures SortedByBlock(History(logs, journeyId, me))
    ensures forall r :: r in History(logs, journeyId, me) <==>
      exists i | 0 <= i < |logs| :: Matches(logs[i], journeyId, me) && r == RecordOf(logs[i])
    ensures forall b :: AtBlock(History(logs, journeyId, me), b) == AtBlock(Collect(logs, journeyId, me), b)
  {
    var c := Collect(logs, journeyId, me);
    HistoryIsSortedCollect(logs, journeyId, me);
    SortByBlockSpec(c);
    assert |multiset(History(logs, journeyId, me))| == |multiset(c)|;
    forall r ensures r in History(logs, journeyId, me) <==>
      exists i | 0 <= i < |logs| :: Matches(logs[i], journeyId, me) && r == RecordOf(logs[i])
    {
      assert r in History(logs, journeyId, me) <==> r in multiset(c);
      CollectMembership(logs, journeyId, me, r);
    }
    forall b ensures AtBlock(History(logs, journeyId, me), b) == AtBlock(c, b) {
      SortIsStable(c, b);
    }
  }

  /** Records of other participants never appear. */
  lemma HistoryExcludesOthers(logs: seq<RawLog>, journeyId: int, me: string, r: ProgressRecord)
    requires r in History(logs, journeyId, me)
    ensures SameAddress(r.participant, me)
  {
    HistorySpecification(logs, journeyId, me);
  }
}
