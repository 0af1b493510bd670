/** The PostgreSQL events table and its outbox: identity ids are allocated at insert, become
    visible at commit in any order, and are published in a gapless order of visibility. */
module Outbox {
  import opened Events
  import opened Execution

  datatype Status = Open | Committed | Reverted

  /** One allocated identity id; its position in the table is the id. */
  datatype Slot = Slot(eventId: Id, event: Event, seqNo: int, txn: nat, status: Status, published: bool) {
    predicate Live() { status != Reverted }
    function Stream(): Account { event.account }
  }

  datatype Entry = Entry(position: int, eventId: Id)

  // -------------------------------------------------------------- the queries

  /** `WHERE NOT published ORDER BY id` among the committed rows. */
  function Pending(rows: seq<Slot>): (r: seq<nat>)
  {
    if rows == [] then []
    else
      var n := |rows| - 1;
      var before := Pending(rows[..n]);
      if rows[n].status == Committed && !rows[n].published then before + [n] else before
  }

  lemma {:induction false} PendingSpec(rows: seq<Slot>)
    ensures forall k :: 0 <= k < |Pending(rows)| ==>
              Pending(rows)[k] < |rows| && rows[Pending(rows)[k]].status == Committed && !rows[Pending(rows)[k]].published
    ensures forall j, k :: 0 <= j < k < |Pending(rows)| ==> Pending(rows)[j] < Pending(rows)[k]
    ensures forall i :: 0 <= i < |rows| && rows[i].status == Committed && !rows[i].published ==> i in Pending(rows)
  {
    if rows != [] {
      var n := |rows| - 1;
      PendingSpec(rows[..n]);
      forall i | 0 <= i < |rows| && rows[i].status == Committed && !rows[i].published ensures i in Pending(rows) {
        if i < n { assert rows[..n][i] == rows[i]; }
      }
    }
  }

  /** `COALESCE(MAX(position), 0)`. */
  function Head(outbox: seq<Entry>): int {
    if outbox == [] then 0
    else
      var before := Head(outbox[..|outbox| - 1]);
      var p := outbox[|outbox| - 1].position;
      if p > before then p else before
  }

  ghost predicate Gapless(outbox: seq<Entry>) {
    forall k :: 0 <= k < |outbox| ==> outbox[k].position == k + 1
  }

  lemma {:induction false} HeadIsLength(outbox: seq<Entry>)
    requires Gapless(outbox)
    ensures Head(outbox) == |outbox|
  {
    if outbox != [] { HeadIsLength(outbox[..|outbox| - 1]); }
  }

  // ------------------------------------------------------------ the invariant

  ghost predicate SameKey(x: Slot, y: Slot) { x.Stream() == y.Stream() && x.seqNo == y.seqNo }

  /** Earlier in the same stream. */
  ghost predicate Precedes(x: Slot, y: Slot) { x.Stream() == y.Stream() && x.seqNo < y.seqNo }

  /** `UNIQUE (stream, seq)` and `UNIQUE (event_id)`. */
  ghost predicate Unique(rows: seq<Slot>) {
    forall i, j :: 0 <= i < j < |rows| && rows[i].Live() && rows[j].Live() ==>
      !SameKey(rows[i], rows[j]) && rows[i].eventId != rows[j].eventId
  }

  /** Row `x` may be relied on by row `y`: it is committed, or belongs to the same open writer. */
  ghost predicate Visible(x: Slot, y: Slot) {
    x.status == Committed || (x.status == Open && y.status == Open && x.txn == y.txn)
  }

  /** Whoever inserted a row saw everything before it in its stream. */
  ghost predicate Ordered(rows: seq<Slot>) {
    forall i, j :: 0 <= i < |rows| && 0 <= j < |rows| && rows[i].Live() && rows[j].Live() ==>
      Precedes(rows[i], rows[j]) ==> i < j && Visible(rows[i], rows[j])
  }

  ghost predicate HasKey(rows: seq<Slot>, stream: Account, s: int) {
    exists i :: 0 <= i < |rows| && rows[i].Live() && rows[i].Stream() == stream && rows[i].seqNo == s
  }

  ghost predicate NoGaps(rows: seq<Slot>) {
    forall j, s :: 0 <= j < |rows| && rows[j].Live() && 1 <= s < rows[j].seqNo ==> HasKey(rows, rows[j].Stream(), s)
  }

  ghost predicate TableInv(rows: seq<Slot>) {
    && Unique(rows) && Ordered(rows) && NoGaps(rows)
    && (forall i :: 0 <= i < |rows| ==> rows[i].seqNo >= 1 && (rows[i].published ==> rows[i].status == Committed))
  }

  /** `origin[k]` is the identity id of the event at position k + 1. */
  ghost predicate FeedInv(rows: seq<Slot>, outbox: seq<Entry>, origin: seq<nat>) {
    && Gapless(outbox) && |origin| == |outbox|
    && (forall k :: 0 <= k < |origin| ==>
          origin[k] < |rows| && rows[origin[k]].published && rows[origin[k]].eventId == outbox[k].eventId)
    && (forall j, k :: 0 <= j < k < |origin| ==> origin[j] != origin[k])
    && (forall i :: 0 <= i < |rows| && rows[i].published ==> i in origin)
  }

  /** Positions follow each stream's own order. */
  ghost predicate StreamOrder(rows: seq<Slot>, origin: seq<nat>) {
    forall j, k :: 0 <= j < |origin| && 0 <= k < |origin| && origin[j] < |rows| && origin[k] < |rows| ==>
      Precedes(rows[origin[j]], rows[origin[k]]) ==> j < k
  }

  /** A published event's predecessors in its stream are published. */
  ghost predicate PublishedPrefix(rows: seq<Slot>) {
    forall i, j :: 0 <= i < |rows| && 0 <= j < |rows| && rows[i].Live() && rows[j].published ==>
      Precedes(rows[i], rows[j]) ==> rows[i].published
  }

  // ------------------------------------------------------------------- steps

  /** The writer of `slot` saw number `v` of its stream. */
  ghost predicate Sees(rows: seq<Slot>, slot: Slot, v: int) {
    exists i :: 0 <= i < |rows| && rows[i].Stream() == slot.Stream() && rows[i].seqNo == v && Visible(rows[i], slot)
  }

  /** What every writer sees: all the numbers before the one it is about to take. */
  ghost predicate SeesAll(rows: seq<Slot>, txn: nat, e: Event, s: int, eventId: Id) {
    s >= 1 && forall v :: 1 <= v < s ==> Sees(rows, Slot(eventId, e, s, txn, Open, false), v)
  }

  /** Neither unique key is taken by a live row. */
  predicate KeysFree(rows: seq<Slot>, e: Event, s: int, eventId: Id) {
    forall i :: 0 <= i < |rows| && rows[i].Live() ==>
      rows[i].eventId != eventId && !(rows[i].Stream() == e.account && rows[i].seqNo == s)
  }

  /** A successful insert. */
  ghost predicate CanInsert(rows: seq<Slot>, txn: nat, e: Event, s: int, eventId: Id) {
    SeesAll(rows, txn, e, s, eventId) && KeysFree(rows, e, s, eventId)
  }

  function Finished(rows: seq<Slot>, txn: nat, status: Status): (r: seq<Slot>)
    ensures |r| == |rows|
    ensures forall i :: 0 <= i < |rows| ==>
              r[i] == if rows[i].txn == txn && rows[i].status == Open then rows[i].(status := status) else rows[i]
  {
    seq(|rows|, i requires 0 <= i < |rows| =>
      if rows[i].txn == txn && rows[i].status == Open then rows[i].(status := status) else rows[i])
  }

  lemma InsertKeeps(rows: seq<Slot>, txn: nat, e: Event, s: int, eventId: Id)
    requires TableInv(rows) && CanInsert(rows, txn, e, s, eventId)
    ensures TableInv(rows + [Slot(eventId, e, s, txn, Open, false)])
  {
    var slot := Slot(eventId, e, s, txn, Open, false);
    var stream := e.account;
    var rows' := rows + [slot];
    assert !HasKey(rows, stream, s);
    forall i | 0 <= i < |rows| && rows[i].Live() && rows[i].Stream() == stream ensures rows[i].seqNo < s {
      assert s < rows[i].seqNo ==> HasKey(rows, stream, s);
    }
    forall i | 0 <= i < |rows| && rows[i].Live() && rows[i].Stream() == stream ensures Visible(rows[i], slot) {
      assert Sees(rows, slot, rows[i].seqNo);
      var n :| 0 <= n < |rows| && rows[n].Stream() == stream && rows[n].seqNo == rows[i].seqNo && Visible(rows[n], slot);
      assert SameKey(rows[n], rows[i]);
    }
    forall j, v | 0 <= j < |rows'| && rows'[j].Live() && 1 <= v < rows'[j].seqNo ensures HasKey(rows', rows'[j].Stream(), v) {
      if j < |rows| { assert HasKey(rows, rows[j].Stream(), v); } else { assert Sees(rows, slot, v); }
      var i :| 0 <= i < |rows| && rows[i].Live() && rows[i].Stream() == rows'[j].Stream() && rows[i].seqNo == v;
      assert rows'[i] == rows[i];
    }
  }

  lemma FinishKeeps(rows: seq<Slot>, txn: nat, status: Status)
    requires TableInv(rows) && status != Open
    ensures TableInv(Finished(rows, txn, status))
  {
    var rows' := Finished(rows, txn, status);
    forall j, v | 0 <= j < |rows'| && rows'[j].Live() && 1 <= v < rows'[j].seqNo ensures HasKey(rows', rows'[j].Stream(), v) {
      assert HasKey(rows, rows[j].Stream(), v);
      var i :| 0 <= i < |rows| && rows[i].Live() && rows[i].Stream() == rows[j].Stream() && rows[i].seqNo == v;
      assert Visible(rows[i], rows[j]);
      assert rows'[i].Live();
    }
  }

  // ------------------------------------------------------------------- relay

  function Flipped(rows: seq<Slot>): (r: seq<Slot>)
    ensures |r| == |rows|
    ensures forall i :: 0 <= i < |rows| ==> r[i] == if rows[i].status == Committed then rows[i].(published := true) else rows[i]
  {
    seq(|rows|, i requires 0 <= i < |rows| => if rows[i].status == Committed then rows[i].(published := true) else rows[i])
  }

  ghost predicate Publishes(rows: seq<Slot>, start: int, pending: seq<nat>, entries: seq<Entry>) {
    && |entries| == |pending|
    && forall k :: 0 <= k < |entries| ==>
         pending[k] < |rows| && entries[k] == Entry(start + k + 1, rows[pending[k]].eventId)
  }

  /** Publishing the pending rows in id order keeps every property of the feed. */
  lemma RelayKeeps(rows: seq<Slot>, outbox: seq<Entry>, origin: seq<nat>, entries: seq<Entry>)
    requires TableInv(rows) && FeedInv(rows, outbox, origin) && StreamOrder(rows, origin) && PublishedPrefix(rows)
    requires Publishes(rows, |outbox|, Pending(rows), entries)
    ensures TableInv(Flipped(rows))
    ensures FeedInv(Flipped(rows), outbox + entries, origin + Pending(rows))
    ensures StreamOrder(Flipped(rows), origin + Pending(rows)) && PublishedPrefix(Flipped(rows))
  {
    hide Pending;
    PendingSpec(rows);
    RelayTable(rows);
    RelayFeed(rows, outbox, origin, entries);
    RelayOrder(rows, outbox, origin);
  }

  lemma RelayTable(rows: seq<Slot>)
    requires TableInv(rows)
    ensures TableInv(Flipped(rows)) && PublishedPrefix(Flipped(rows))
  {
    var rows' := Flipped(rows);
    forall j, v | 0 <= j < |rows'| && rows'[j].Live() && 1 <= v < rows'[j].seqNo ensures HasKey(rows', rows'[j].Stream(), v) {
      assert HasKey(rows, rows[j].Stream(), v);
      var i :| 0 <= i < |rows| && rows[i].Live() && rows[i].Stream() == rows[j].Stream() && rows[i].seqNo == v;
      assert rows'[i].Live();
    }
    forall i, j | 0 <= i < |rows'| && 0 <= j < |rows'| && rows'[i].Live() && rows'[j].Live() && Precedes(rows'[i], rows'[j])
      ensures i < j && Visible(rows'[i], rows'[j])
    {
      assert Precedes(rows[i], rows[j]);
    }
  }

  lemma RelayFeed(rows: seq<Slot>, outbox: seq<Entry>, origin: seq<nat>, entries: seq<Entry>)
    requires FeedInv(rows, outbox, origin) && Publishes(rows, |outbox|, Pending(rows), entries)
    ensures FeedInv(Flipped(rows), outbox + entries, origin + Pending(rows))
  {
    hide Pending;
    PendingSpec(rows);
    var pending, rows' := Pending(rows), Flipped(rows);
    var origin' := origin + pending;
    RelayCovers(rows, origin, pending);
    var outbox' := outbox + entries;
    forall k | 0 <= k < |origin'|
      ensures origin'[k] < |rows'| && rows'[origin'[k]].published && rows'[origin'[k]].eventId == outbox'[k].eventId
      ensures outbox'[k].position == k + 1
    {
      if k < |origin| {
        assert origin'[k] == origin[k] && outbox'[k] == outbox[k];
      } else {
        assert origin'[k] == pending[k - |origin|] && outbox'[k] == entries[k - |origin|];
      }
    }
  }

  lemma RelayCovers(rows: seq<Slot>, origin: seq<nat>, pending: seq<nat>)
    requires forall k :: 0 <= k < |origin| ==> origin[k] < |rows| && rows[origin[k]].published
    requires forall k :: 0 <= k < |pending| ==> pending[k] < |rows| && !rows[pending[k]].published
    requires forall j, k :: 0 <= j < k < |origin| ==> origin[j] != origin[k]
    requires forall j, k :: 0 <= j < k < |pending| ==> pending[j] < pending[k]
    requires forall i :: 0 <= i < |rows| && rows[i].published ==> i in origin
    requires forall i :: 0 <= i < |rows| && rows[i].status == Committed && !rows[i].published ==> i in pending
    ensures forall j, k :: 0 <= j < k < |origin + pending| ==> (origin + pending)[j] != (origin + pending)[k]
    ensures forall i :: 0 <= i < |rows| && Flipped(rows)[i].published ==> i in origin + pending
  {}

  /** The heart of the matter: a predecessor in the stream was visible to the writer, so it is
      published no later and, within one relay, has the smaller id. */
  lemma RelayOrder(rows: seq<Slot>, outbox: seq<Entry>, origin: seq<nat>)
    requires TableInv(rows) && FeedInv(rows, outbox, origin) && StreamOrder(rows, origin) && PublishedPrefix(rows)
    ensures StreamOrder(Flipped(rows), origin + Pending(rows))
  {
    hide Pending;
    PendingSpec(rows);
    var pending, rows' := Pending(rows), Flipped(rows);
    var origin' := origin + pending;
    forall j, k | 0 <= j < |origin'| && 0 <= k < |origin'| && origin'[j] < |rows'| && origin'[k] < |rows'| &&
                  Precedes(rows'[origin'[j]], rows'[origin'[k]])
      ensures j < k
    {
      var x, y := origin'[j], origin'[k];
      assert Precedes(rows[x], rows[y]);
      assert rows[x].Live() && rows[y].published ==> rows[x].published;
      if j >= |origin| && k >= |origin| {
        assert pending[j - |origin|] == x && pending[k - |origin|] == y;
        assert x < y;
      }
    }
  }

  // ------------------------------------------------------------- the classes

  class EventTable {
    var rows: seq<Slot>
    var outbox: seq<Entry>
    ghost var origin: seq<nat>

    ghost predicate Valid()
      reads this
    {
      TableInv(rows) && FeedInv(rows, outbox, origin) && StreamOrder(rows, origin) && PublishedPrefix(rows)
    }

    constructor ()
      ensures Valid() && rows == [] && outbox == []
    {
      rows, outbox, origin := [], [], [];
    }

    /** One insert of an open transaction. It allocates the next id; a taken key raises and the
        id is lost. An inserted row is not yet visible to others. */
    method Insert(txn: nat, e: Event, s: int, eventId: Id) returns (ok: bool)
      requires Valid() && SeesAll(rows, txn, e, s, eventId)
      modifies this
      ensures Valid() && outbox == old(outbox) && origin == old(origin)
      ensures ok == KeysFree(old(rows), e, s, eventId)
      ensures rows == old(rows) + [Slot(eventId, e, s, txn, if ok then Open else Reverted, false)]
    {
      hide Pending, TableInv, FeedInv, StreamOrder, PublishedPrefix, KeysFree;
      ok := KeysFree(rows, e, s, eventId);
      var slot := Slot(eventId, e, s, txn, if ok then Open else Reverted, false);
      if ok { InsertKeeps(rows, txn, e, s, eventId); } else { LostKeeps(rows, slot); }
      InsertUnpublished(rows, outbox, origin, slot);
      rows := rows + [slot];
    }

    /** The plain append: number the event after the largest committed one and insert it. */
    method Append(txn: nat, e: Event, eventId: Id) returns (r: Option<int>)
      requires Valid()
      modifies this
      ensures Valid() && outbox == old(outbox)
      ensures var s := LastSeq(old(rows), e.account) + 1;
              && (r == Some(s) <==> KeysFree(old(rows), e, s, eventId)) && (r.Some? ==> r == Some(s))
              && rows == old(rows) + [Slot(eventId, e, s, txn, if r.Some? then Open else Reverted, false)]
    {
      var s := LastSeq(rows, e.account) + 1;
      LastSeqSeen(rows, txn, e, eventId);
      hide TableInv, FeedInv, StreamOrder, PublishedPrefix, KeysFree, SeesAll, LastSeq;
      var ok := Insert(txn, e, s, eventId);
      r := if ok then Some(s) else None;
    }

    /** Forget every publication, as a restore does before the feed is published anew. */
    method Reset()
      requires Valid()
      modifies this
      ensures Valid() && outbox == [] && rows == Unpublished(old(rows))
    {
      ResetKeeps(rows);
      rows, outbox, origin := Unpublished(rows), [], [];
    }

    /** Commit or roll back all rows of a transaction, whatever ids others got meanwhile. */
    method Finish(txn: nat, commit: bool)
      requires Valid()
      modifies this
      ensures Valid() && outbox == old(outbox)
      ensures rows == Finished(old(rows), txn, if commit then Committed else Reverted)
    {
      FinishKeeps(rows, txn, if commit then Committed else Reverted);
      FinishUnpublished(rows, outbox, origin, txn, if commit then Committed else Reverted);
      rows := Finished(rows, txn, if commit then Committed else Reverted);
    }

    /** Give every committed, unpublished event the next position, in id order. Afterwards
        every committed event has exactly one position, and old positions are unchanged. */
    method RelayOutbox() returns (n: nat)
      requires Valid()
      modifies this
      ensures Valid()
      ensures old(outbox) <= outbox && |outbox| == |old(outbox)| + n
      ensures rows == Flipped(old(rows)) && old(origin) <= origin
      ensures forall j, k :: |old(origin)| <= j < k < |origin| ==> origin[j] < origin[k]
      ensures forall i :: 0 <= i < |rows| && rows[i].status == Committed ==> rows[i].published
    {
      hide Pending, TableInv, StreamOrder, PublishedPrefix;
      var pending := Pending(rows);
      PendingSpec(rows);
      HeadIsLength(outbox);
      var position := Head(outbox);
      var entries: seq<Entry> := [];
      for k := 0 to |pending|
        invariant position == |outbox| + k && |entries| == k
        invariant outbox == old(outbox) && rows == old(rows) && origin == old(origin)
        invariant Publishes(rows, |outbox|, pending[..k], entries)
      {
        position := position + 1;
        entries := entries + [Entry(position, rows[pending[k]].eventId)];
      }
      assert pending[..|pending|] == pending;
      RelayKeeps(rows, outbox, origin, entries);
      outbox, origin := outbox + entries, origin + pending;
      rows := Flipped(rows);
      n := |entries|;
    }

    /** The consumer's feed after a position, relayed first. */
    method ReadAll(after: nat, limit: nat) returns (batch: seq<Entry>)
      requires Valid() && after <= |outbox|
      modifies this
      ensures Valid() && old(outbox) <= outbox && rows == Flipped(old(rows))
      ensures batch == outbox[after..if after + limit < |outbox| then after + limit else |outbox|]
    {
      var n := RelayOutbox();
      batch := outbox[after..if after + limit < |outbox| then after + limit else |outbox|];
    }

    /** Every published event stands at exactly one position. */
    lemma ExactlyOnePosition(i: nat) returns (k: nat)
      requires Valid() && i < |rows| && rows[i].published
      ensures k < |outbox| && outbox[k] == Entry(k + 1, rows[i].eventId)
      ensures forall j :: 0 <= j < |outbox| && outbox[j].eventId == rows[i].eventId ==> j == k
    {
      k :| 0 <= k < |origin| && origin[k] == i;
      forall j | 0 <= j < |outbox| && outbox[j].eventId == rows[i].eventId ensures j == k {
        var x := origin[j];
        assert rows[x].published && rows[x].eventId == rows[i].eventId;
        assert rows[x].Live() && rows[i].Live();
      }
    }

    /** Positions respect the order of each stream. */
    lemma PositionsFollowStreams(i: nat, j: nat, p: nat, q: nat)
      requires Valid() && i < |rows| && j < |rows| && rows[i].published && rows[j].published && Precedes(rows[i], rows[j])
      requires p < |outbox| && q < |outbox| && outbox[p].eventId == rows[i].eventId && outbox[q].eventId == rows[j].eventId
      ensures p < q
    {}
  }

  /** A lost id changes nothing. */
  lemma LostKeeps(rows: seq<Slot>, slot: Slot)
    requires TableInv(rows) && !slot.Live() && !slot.published && slot.seqNo >= 1
    ensures TableInv(rows + [slot])
  {
    var rows' := rows + [slot];
    forall j, v | 0 <= j < |rows'| && rows'[j].Live() && 1 <= v < rows'[j].seqNo ensures HasKey(rows', rows'[j].Stream(), v) {
      assert HasKey(rows, rows[j].Stream(), v);
      var i :| 0 <= i < |rows| && rows[i].Live() && rows[i].Stream() == rows[j].Stream() && rows[i].seqNo == v;
      assert rows'[i] == rows[i];
    }
  }

  /** `COALESCE(MAX(seq), 0)` over the committed rows of a stream. */
  function LastSeq(rows: seq<Slot>, a: Account): int {
    if rows == [] then 0
    else
      var before := LastSeq(rows[..|rows| - 1], a);
      var row := rows[|rows| - 1];
      if row.status == Committed && row.Stream() == a && row.seqNo > before then row.seqNo else before
  }

  lemma {:induction false} LastSeqFound(rows: seq<Slot>, a: Account)
    ensures LastSeq(rows, a) >= 0
    ensures LastSeq(rows, a) > 0 ==>
              exists i :: 0 <= i < |rows| && rows[i].status == Committed && rows[i].Stream() == a && rows[i].seqNo == LastSeq(rows, a)
  {
    if rows != [] {
      var n := |rows| - 1;
      LastSeqFound(rows[..n], a);
      if LastSeq(rows, a) > 0 && LastSeq(rows, a) == LastSeq(rows[..n], a) {
        var i :| 0 <= i < n && rows[..n][i].status == Committed && rows[..n][i].Stream() == a &&
                 rows[..n][i].seqNo == LastSeq(rows, a);
        assert rows[i] == rows[..n][i];
      }
    }
  }

  /** Numbering after the largest committed row, a writer has seen every number before. */
  lemma LastSeqSeen(rows: seq<Slot>, txn: nat, e: Event, eventId: Id)
    requires TableInv(rows)
    ensures SeesAll(rows, txn, e, LastSeq(rows, e.account) + 1, eventId)
  {
    hide LastSeq;
    LastSeqFound(rows, e.account);
    var last := LastSeq(rows, e.account);
    var slot := Slot(eventId, e, last + 1, txn, Open, false);
    forall v | 1 <= v < last + 1 ensures Sees(rows, slot, v) {
      var j :| 0 <= j < |rows| && rows[j].status == Committed && rows[j].Stream() == e.account && rows[j].seqNo == last;
      if v == last {
        assert Visible(rows[j], slot);
      } else {
        assert HasKey(rows, rows[j].Stream(), v);
        var i :| 0 <= i < |rows| && rows[i].Live() && rows[i].Stream() == e.account && rows[i].seqNo == v;
        assert Precedes(rows[i], rows[j]);
        assert Visible(rows[i], slot);
      }
    }
  }

  function Unpublished(rows: seq<Slot>): (r: seq<Slot>)
    ensures |r| == |rows|
    ensures forall i :: 0 <= i < |rows| ==> r[i] == rows[i].(published := false)
  {
    seq(|rows|, i requires 0 <= i < |rows| => rows[i].(published := false))
  }

  lemma ResetKeeps(rows: seq<Slot>)
    requires TableInv(rows)
    ensures TableInv(Unpublished(rows))
  {
    var rows' := Unpublished(rows);
    forall j, v | 0 <= j < |rows'| && rows'[j].Live() && 1 <= v < rows'[j].seqNo ensures HasKey(rows', rows'[j].Stream(), v) {
      assert HasKey(rows, rows[j].Stream(), v);
      var i :| 0 <= i < |rows| && rows[i].Live() && rows[i].Stream() == rows[j].Stream() && rows[i].seqNo == v;
      assert rows'[i].Live();
    }
  }

  // ------------------------------------------------------------ the joined feed

  function RowOf(slot: Slot): Row { Row(slot.eventId, slot.seqNo, slot.event) }

  /** `JOIN events ON event_id`: the committed row an entry names. */
  function Joined(rows: seq<Slot>, eventId: Id): Option<Row> {
    if rows == [] then None
    else
      var row := rows[|rows| - 1];
      if row.status == Committed && row.eventId == eventId then Some(RowOf(row)) else Joined(rows[..|rows| - 1], eventId)
  }

  /** The rows a consumer is handed, position by position. */
  ghost function Feed(rows: seq<Slot>, origin: seq<nat>): (feed: seq<Row>)
    requires forall k :: 0 <= k < |origin| ==> origin[k] < |rows|
    ensures |feed| == |origin| && forall k :: 0 <= k < |origin| ==> feed[k] == RowOf(rows[origin[k]])
  {
    seq(|origin|, k requires 0 <= k < |origin| => RowOf(rows[origin[k]]))
  }

  lemma {:induction false} JoinFinds(rows: seq<Slot>, i: nat)
    requires Unique(rows) && i < |rows| && rows[i].status == Committed
    ensures Joined(rows, rows[i].eventId) == Some(RowOf(rows[i]))
  {
    var n := |rows| - 1;
    if i < n {
      JoinFinds(rows[..n], i);
      assert rows[..n][i] == rows[i];
    }
  }

  /** Joining the outbox with the events gives exactly that feed. */
  lemma FeedIsJoined(rows: seq<Slot>, outbox: seq<Entry>, origin: seq<nat>, k: nat)
    requires TableInv(rows) && FeedInv(rows, outbox, origin) && k < |outbox|
    ensures Joined(rows, outbox[k].eventId) == Some(Feed(rows, origin)[k])
  {
    JoinFinds(rows, origin[k]);
  }

  lemma InsertUnpublished(rows: seq<Slot>, outbox: seq<Entry>, origin: seq<nat>, slot: Slot)
    requires FeedInv(rows, outbox, origin) && StreamOrder(rows, origin) && PublishedPrefix(rows)
    requires TableInv(rows + [slot]) && !slot.published
    ensures FeedInv(rows + [slot], outbox, origin) && StreamOrder(rows + [slot], origin) && PublishedPrefix(rows + [slot])
  {
    var rows' := rows + [slot];
    forall i, j | 0 <= i < |rows'| && 0 <= j < |rows'| && rows'[i].Live() && rows'[j].published && Precedes(rows'[i], rows'[j])
      ensures rows'[i].published
    {
      assert i < j;
    }
  }

  lemma FinishUnpublished(rows: seq<Slot>, outbox: seq<Entry>, origin: seq<nat>, txn: nat, status: Status)
    requires TableInv(rows) && FeedInv(rows, outbox, origin) && StreamOrder(rows, origin) && PublishedPrefix(rows)
    ensures FeedInv(Finished(rows, txn, status), outbox, origin)
    ensures StreamOrder(Finished(rows, txn, status), origin) && PublishedPrefix(Finished(rows, txn, status))
  {}

  /** A consumer with a monotonic offset: what it was handed is the outbox up to the offset. */
  class Consumer {
    const table: EventTable
    var offset: nat
    ghost var delivered: seq<Entry>

    ghost predicate Valid()
      reads this, table
    {
      table.Valid() && offset <= |table.outbox| && delivered == table.outbox[..offset]
    }

    constructor (table: EventTable)
      requires table.Valid()
      ensures Valid() && this.table == table
    {
      this.table := table;
      offset, delivered := 0, [];
    }

    /** Nothing is handed out twice or skipped, however late an id committed. */
    method Poll(limit: nat) returns (batch: seq<Entry>)
      requires Valid()
      modifies this, table
      ensures Valid() && delivered == old(delivered) + batch && |batch| <= limit
      ensures |batch| < limit ==> offset == |table.outbox|
      ensures table.rows == Flipped(old(table.rows)) && old(table.outbox) <= table.outbox
    {
      batch := table.ReadAll(offset, limit);
      delivered := delivered + batch;
      offset := offset + |batch|;
    }
  }
}
