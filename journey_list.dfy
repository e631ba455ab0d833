/** The journey list page: query every `JourneyStarted` log, turn the ones that
    decode into items, and show them newest first. */
module JourneyList {
  import opened Wrappers
  import opened Events
  import Addresses
  import Text
  import opened Backend

  /** One row of the list; the page leaves `start` and `end` at 0. */
  datatype Item = Item(id: int, creator: string, cid: string, start: int, end: int)

  /** The item a `JourneyStarted` log gives: `args[0..2]`. */
  function ItemOf(log: RawLog): Item
    requires IsJourneyStarted(log)
  {
    var e := log.parse.event;
    Item(e.journeyId, e.creator, e.journeyCID, 0, 0)
  }

  /** The positions of the logs that decode to `JourneyStarted`, in query order. */
  function StartedAt(logs: seq<RawLog>): (idx: seq<nat>)
    ensures forall k | 0 <= k < |idx| :: idx[k] < |logs| && IsJourneyStarted(logs[idx[k]])
    ensures forall k, l | 0 <= k < l < |idx| :: idx[k] < idx[l]
    ensures forall i | 0 <= i < |logs| && IsJourneyStarted(logs[i]) :: i in idx
  {
    if logs == [] then []
    else
      var front := logs[..|logs| - 1];
      var idx := StartedAt(front);
      assert forall i | 0 <= i < |front| :: front[i] == logs[i];
      if IsJourneyStarted(logs[|logs| - 1]) then idx + [|logs| - 1] else idx
  }

  /** `parsed` after the loop: one item per `JourneyStarted` log, in query order. */
  function StartedItems(logs: seq<RawLog>): seq<Item> {
    if logs == [] then []
    else
      var front := StartedItems(logs[..|logs| - 1]);
      if IsJourneyStarted(logs[|logs| - 1]) then front + [ItemOf(logs[|logs| - 1])] else front
  }

  /** The `k`-th item is made from the `k`-th `JourneyStarted` log. */
  lemma {:induction false} ItemsFollowLogs(logs: seq<RawLog>)
    ensures |StartedItems(logs)| == |StartedAt(logs)|
    ensures forall k | 0 <= k < |StartedItems(logs)| :: StartedItems(logs)[k] == ItemOf(logs[StartedAt(logs)[k]])
  {
    if logs != [] {
      var front := logs[..|logs| - 1];
      ItemsFollowLogs(front);
      assert forall i | 0 <= i < |front| :: front[i] == logs[i];
    }
  }

  /** Every `JourneyStarted` log gives an item (with `ItemsFollowLogs`, every
      item comes from one); logs that fail to decode, or decode to another
      event, are skipped, so there are at most as many items as logs. */
  lemma OnlyStartedLogsGiveItems(logs: seq<RawLog>)
    ensures |StartedItems(logs)| <= |logs|
    ensures forall i | 0 <= i < |logs| && IsJourneyStarted(logs[i]) :: ItemOf(logs[i]) in StartedItems(logs)
    ensures forall k | 0 <= k < |StartedItems(logs)| :: StartedItems(logs)[k].start == 0 && StartedItems(logs)[k].end == 0
  {
    ItemsFollowLogs(logs);
    var idx := StartedAt(logs);
    var items := StartedItems(logs);
    StrictlyIncreasingBound(idx, |logs|);
    forall i | 0 <= i < |logs| && IsJourneyStarted(logs[i]) ensures ItemOf(logs[i]) in items {
      var k :| 0 <= k < |idx| && idx[k] == i;
      assert items[k] == ItemOf(logs[i]);
    }
  }

  /** Strictly increasing positions below `n` are at most `n` in number. */
  lemma {:induction false} StrictlyIncreasingBound(idx: seq<nat>, n: nat)
    requires forall k | 0 <= k < |idx| :: idx[k] < n
    requires forall k, l | 0 <= k < l < |idx| :: idx[k] < idx[l]
    ensures |idx| <= n
  {
    if idx != [] {
      var last := idx[|idx| - 1];
      StrictlyIncreasingBound(idx[..|idx| - 1], last);
    }
  }

  /** `s` backwards. */
  function Reversed<T>(s: seq<T>): (r: seq<T>)
    ensures |r| == |s|
    ensures forall i | 0 <= i < |s| :: r[i] == s[|s| - 1 - i]
  {
    if s == [] then [] else Reversed(s[1..]) + [s[0]]
  }

  lemma ReversedTwice<T>(s: seq<T>)
    ensures Reversed(Reversed(s)) == s
  {
  }

  /** What the list shows: the items newest first. Row `k` comes from the log
      at position `pos[k]` of the query, and the positions decrease down the list. */
  lemma ListIsNewestFirst(logs: seq<RawLog>)
    ensures var rows := Reversed(StartedItems(logs));
      var pos := Reversed(StartedAt(logs));
      && |rows| == |pos|
      && (forall k | 0 <= k < |rows| :: pos[k] < |logs| && rows[k] == ItemOf(logs[pos[k]]))
      && (forall k, l | 0 <= k < l < |pos| :: pos[k] > pos[l])
  {
    ItemsFollowLogs(logs);
    var idx := StartedAt(logs);
    var items := StartedItems(logs);
    var pos := Reversed(idx);
    var rows := Reversed(items);
    forall k | 0 <= k < |rows| ensures pos[k] < |logs| && rows[k] == ItemOf(logs[pos[k]]) {
      var j := |idx| - 1 - k;
      assert idx[j] < |logs| && IsJourneyStarted(logs[idx[j]]);
      assert items[j] == ItemOf(logs[idx[j]]);
      assert pos[k] == idx[j] && rows[k] == items[j];
    }
    DecreasingWhenReversed(idx);
  }

  /** Increasing positions read backwards decrease. */
  lemma DecreasingWhenReversed(idx: seq<nat>)
    requires forall k, l | 0 <= k < l < |idx| :: idx[k] < idx[l]
    ensures forall k, l | 0 <= k < l < |idx| :: Reversed(idx)[k] > Reversed(idx)[l]
  {
    var pos := Reversed(idx);
    forall k, l | 0 <= k < l < |pos| ensures pos[k] > pos[l] {
      assert pos[k] == idx[|idx| - 1 - k] && pos[l] == idx[|idx| - 1 - l];
    }
  }

  /** The loop of the effect: push an item for every log that decodes to `JourneyStarted`. */
  method CollectItems(logs: seq<RawLog>) returns (parsed: seq<Item>)
    ensures parsed == StartedItems(logs)
  {
    parsed := [];
    var i := 0;
    while i < |logs|
      invariant 0 <= i <= |logs|
      invariant parsed == StartedItems(logs[..i])
    {
      assert logs[..i + 1][..i] == logs[..i];
      if IsJourneyStarted(logs[i]) {
        parsed := parsed + [ItemOf(logs[i])];
      }
      i := i + 1;
    }
    assert logs[..|logs|] == logs;
  }

  /** `Array.prototype.reverse`, in place. */
  method ReverseInPlace<T>(a: array<T>)
    modifies a
    ensures a[..] == Reversed(old(a[..]))
  {
    var i := 0;
    var j := a.Length - 1;
    while i < j
      invariant 0 <= i <= a.Length && j == a.Length - 1 - i
      invariant forall k | 0 <= k < i :: a[k] == old(a[a.Length - 1 - k]) && a[a.Length - 1 - k] == old(a[k])
      invariant forall k | i <= k <= j :: a[k] == old(a[k])
    {
      a[i], a[j] := a[j], a[i];
      i := i + 1;
      j := j - 1;
    }
  }

  /** The page's `items` and `loading` state. */
  class ListPage {
    var items: seq<Item>
    var loading: bool

    constructor ()
      ensures items == [] && !loading
    {
      items := [];
      loading := false;
    }

    /** The effect: with an address and a read-only provider, query all
        `JourneyStarted` logs and show their items newest first. A failed
        query leaves the items as they were; `loading` ends false either way. */
    method Load(chain: Chain, address: Option<string>, hasReadonlyProvider: bool)
      modifies this, chain
      ensures var ran := Text.Truthy(address) && hasReadonlyProvider;
        var q := chain.script.query(|old(chain.log)|);
        && (!ran ==> items == old(items) && loading == old(loading) && chain.log == old(chain.log))
        && (ran ==> !loading && chain.log == old(chain.log) + [QueryLogs(AllJourneyStarted, Some(0), None)])
        && (ran ==> items == if q.Ok? then Reversed(StartedItems(q.value)) else old(items))
    {
      if !(Text.Truthy(address) && hasReadonlyProvider) {
        return;
      }
      loading := true;
      var q := chain.Query(AllJourneyStarted, Some(0), None);
      if q.Ok? {
        var parsed := CollectItems(q.value);
        var a := new Item[|parsed|](k requires 0 <= k < |parsed| => parsed[k]);
        assert a[..] == parsed;
        ReverseInPlace(a);
        items := a[..];
      }
      loading := false;
    }
  }
}
