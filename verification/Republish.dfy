/** From positions to tables: any feed that lists the log's rows once each, with every stream
    in the order of its numbers, rebuilds the same read models. */
module Republish {
  import opened Events
  import opened Accounts
  import opened Views
  import opened Execution
  import opened Runs
  import opened Snapshots
  import opened Projection
  import opened Rebuild
  import opened Outbox

  /** The rows of each stream come in the order of their numbers. */
  ghost predicate InStreamOrder(feed: seq<Row>) {
    forall i, j :: 0 <= i < j < |feed| && feed[i].event.account == feed[j].event.account ==> feed[i].seqNo < feed[j].seqNo
  }

  ghost predicate Ascending(rows: seq<Row>) {
    forall i, j :: 0 <= i < j < |rows| ==> rows[i].seqNo < rows[j].seqNo
  }

  lemma {:induction false} MembersOn(rows: seq<Row>, a: Account)
    ensures forall row :: row in RowsOn(rows, a) <==> row in rows && row.event.account == a
    ensures OnAccount(EventsOf(rows), a) == EventsOf(RowsOn(rows, a))
  {
    if rows != [] {
      var n := |rows| - 1;
      MembersOn(rows[..n], a);
      assert rows == rows[..n] + [rows[n]];
      assert EventsOf(rows)[..n] == EventsOf(rows[..n]);
    }
  }

  lemma {:induction false} OrderedOn(feed: seq<Row>, a: Account)
    requires InStreamOrder(feed)
    ensures Ascending(RowsOn(feed, a))
  {
    if feed != [] {
      var n := |feed| - 1;
      OrderedOn(feed[..n], a);
      MembersOn(feed[..n], a);
      var before := RowsOn(feed[..n], a);
      if feed[n].event.account == a {
        forall i | 0 <= i < |before| ensures before[i].seqNo < feed[n].seqNo {
          assert before[i] in feed[..n];
          var k :| 0 <= k < n && feed[k] == before[i];
        }
      }
    }
  }

  /** Two ascending lists with the same rows are the same list. */
  lemma {:induction false} SameList(s: seq<Row>, t: seq<Row>)
    requires Ascending(s) && Ascending(t) && forall row :: row in s <==> row in t
    ensures s == t
    decreases |s|
  {
    if s == [] {
      if t != [] { HasRow(t); assert false; }
    } else {
      var n := |s| - 1;
      assert s[n] in t;
      LastIsLargest(s, t);
      var s', t' := SameInit(s, t);
      SameList(s', t');
    }
  }

  lemma HasRow(t: seq<Row>)
    requires t != []
    ensures exists row :: row in t
  {
    assert t[0] in t;
  }

  lemma LastIsLargest(s: seq<Row>, t: seq<Row>)
    requires Ascending(s) && Ascending(t) && s != [] && t != [] && forall row :: row in s <==> row in t
    ensures s[|s| - 1] == t[|t| - 1]
  {
    assert s[|s| - 1] in t && t[|t| - 1] in s;
    var i :| 0 <= i < |t| && t[i] == s[|s| - 1];
    var j :| 0 <= j < |s| && s[j] == t[|t| - 1];
  }

  lemma SameInit(s: seq<Row>, t: seq<Row>) returns (s': seq<Row>, t': seq<Row>)
    requires Ascending(s) && Ascending(t) && s != [] && t != [] && s[|s| - 1] == t[|t| - 1]
    requires forall row :: row in s <==> row in t
    ensures s' == s[..|s| - 1] && t' == t[..|t| - 1] && forall row :: row in s' <==> row in t'
  {
    s', t' := s[..|s| - 1], t[..|t| - 1];
    forall row ensures row in s' <==> row in t' {
      InitMember(s, row);
      InitMember(t, row);
    }
  }

  lemma InitMember(s: seq<Row>, row: Row)
    requires Ascending(s) && s != []
    ensures row in s[..|s| - 1] <==> row in s && row != s[|s| - 1]
  {
    var n := |s| - 1;
    assert s == s[..n] + [s[n]];
    if row in s[..n] {
      var i :| 0 <= i < n && s[i] == row;
    }
  }

  lemma {:induction false} LogInOrder(log: seq<Row>, a: Account)
    requires Contiguous(log)
    ensures Ascending(RowsOn(log, a))
  {
    RowsOnSpec(log, a);
  }

  /** A feed with the log's rows in stream order is a delivery. */
  lemma FeedDelivers(log: seq<Row>, feed: seq<Row>)
    requires Contiguous(log) && InStreamOrder(feed) && forall row :: row in feed <==> row in log
    ensures Delivers(EventsOf(feed), EventsOf(log))
  {
    forall a ensures OnAccount(EventsOf(feed), a) == OnAccount(EventsOf(log), a) {
      MembersOn(feed, a);
      MembersOn(log, a);
      OrderedOn(feed, a);
      LogInOrder(log, a);
      hide RowsOn, OnAccount, Contiguous;
      SameList(RowsOn(feed, a), RowsOn(log, a));
    }
  }

  /** Two feeds of one reachable log, say the original positions and a republication after a
      restore, build identical tables. */
  lemma FeedsAgree(qs: seq<Request>, feed: seq<Row>, again: seq<Row>)
    requires ValidRun(qs) && InStreamOrder(feed) && InStreamOrder(again)
    requires forall row :: row in feed <==> row in Run(qs).log
    requires forall row :: row in again <==> row in Run(qs).log
    ensures Project(EventsOf(feed)) == Project(EventsOf(again))
  {
    RunKeeps(qs);
    hide Run, Project, Delivers, RowsOn;
    FeedDelivers(Run(qs).log, feed);
    FeedDelivers(Run(qs).log, again);
    RebuildMatchesTheLog(qs, EventsOf(feed), 0, 0, 0);
    RebuildMatchesTheLog(qs, EventsOf(again), 0, 0, 0);
  }

  // ------------------------------------------------- the feed of the events table

  /** The committed rows of the table are the rows of the log. */
  ghost predicate HoldsLog(rows: seq<Slot>, log: seq<Row>) {
    && (forall i :: 0 <= i < |rows| && rows[i].status == Committed ==> RowOf(rows[i]) in log)
    && (forall row :: row in log ==> HasCommitted(rows, row))
  }

  ghost predicate HasCommitted(rows: seq<Slot>, row: Row) {
    exists i :: 0 <= i < |rows| && rows[i].status == Committed && RowOf(rows[i]) == row
  }

  ghost predicate FullyRelayed(rows: seq<Slot>) {
    forall i :: 0 <= i < |rows| && rows[i].status == Committed ==> rows[i].published
  }

  lemma FeedInOrder(rows: seq<Slot>, outbox: seq<Entry>, origin: seq<nat>, i: nat, j: nat)
    requires Unique(rows) && FeedInv(rows, outbox, origin) && StreamOrder(rows, origin) && i < j < |origin|
    requires forall n :: 0 <= n < |rows| && rows[n].published ==> rows[n].status == Committed
    requires rows[origin[i]].Stream() == rows[origin[j]].Stream()
    ensures rows[origin[i]].seqNo < rows[origin[j]].seqNo
  {
    hide Gapless;
    var x, y := origin[i], origin[j];
    assert rows[x].Live() && rows[y].Live() && x != y;
    assert !SameKey(rows[x], rows[y]) && !SameKey(rows[y], rows[x]);
    assert Precedes(rows[y], rows[x]) ==> j < i;
  }

  /** A fully relayed table feeds the rows of its log, each stream in order. */
  lemma TableFeeds(rows: seq<Slot>, outbox: seq<Entry>, origin: seq<nat>, log: seq<Row>)
    requires TableInv(rows) && FeedInv(rows, outbox, origin) && StreamOrder(rows, origin)
    requires FullyRelayed(rows) && HoldsLog(rows, log)
    ensures InStreamOrder(Feed(rows, origin))
    ensures forall row :: row in Feed(rows, origin) <==> row in log
  {
    hide Unique, Ordered, NoGaps, StreamOrder, Gapless;
    var feed := Feed(rows, origin);
    forall i, j | 0 <= i < j < |feed| && feed[i].event.account == feed[j].event.account ensures feed[i].seqNo < feed[j].seqNo {
      FeedInOrder(rows, outbox, origin, i, j);
    }
    FeedMembers(rows, outbox, origin, log);
  }

  lemma FeedMembers(rows: seq<Slot>, outbox: seq<Entry>, origin: seq<nat>, log: seq<Row>)
    requires FeedInv(rows, outbox, origin) && FullyRelayed(rows) && HoldsLog(rows, log)
    requires forall n :: 0 <= n < |rows| && rows[n].published ==> rows[n].status == Committed
    ensures forall row :: row in Feed(rows, origin) <==> row in log
  {
    hide Gapless;
    var feed := Feed(rows, origin);
    forall row | row in feed ensures row in log {
      var k :| 0 <= k < |feed| && feed[k] == row;
      assert rows[origin[k]].status == Committed;
    }
    forall row | row in log ensures row in feed {
      assert HasCommitted(rows, row);
      var i :| 0 <= i < |rows| && rows[i].status == Committed && RowOf(rows[i]) == row;
      assert rows[i].published;
      assert i in origin;
      var k :| 0 <= k < |origin| && origin[k] == i;
      assert feed[k] == row;
    }
  }

  /** The tables built from the feed of a fully relayed events table are those of its log. */
  lemma TableProjects(qs: seq<Request>, rows: seq<Slot>, outbox: seq<Entry>, origin: seq<nat>)
    requires ValidRun(qs) && TableInv(rows) && FeedInv(rows, outbox, origin) && StreamOrder(rows, origin)
    requires FullyRelayed(rows) && HoldsLog(rows, Run(qs).log)
    ensures Project(EventsOf(Feed(rows, origin))) == Project(EventsOf(Run(qs).log))
  {
    RunKeeps(qs);
    hide Run, Project, Delivers, TableInv, FeedInv, StreamOrder, FullyRelayed, HoldsLog, InStreamOrder, Feed;
    TableFeeds(rows, outbox, origin, Run(qs).log);
    FeedDelivers(Run(qs).log, Feed(rows, origin));
    RebuildMatchesTheLog(qs, EventsOf(Feed(rows, origin)), 0, 0, 0);
  }

  lemma RelayHoldsLog(rows: seq<Slot>, log: seq<Row>)
    requires HoldsLog(rows, log)
    ensures HoldsLog(Flipped(Unpublished(rows)), log)
  {
    var rows' := Flipped(Unpublished(rows));
    forall row | row in log ensures HasCommitted(rows', row) {
      assert HasCommitted(rows, row);
      var i :| 0 <= i < |rows| && rows[i].status == Committed && RowOf(rows[i]) == row;
      assert RowOf(rows'[i]) == row;
    }
  }

  /** Restore and republish: every publication is forgotten and the whole log is relayed again
      in id order, which need not be the order in which it first became visible. The read models
      built from the new feed are identical to those built from the old one. */
  method RepublishAll(table: EventTable, ghost qs: seq<Request>) returns (n: nat)
    requires table.Valid() && ValidRun(qs) && FullyRelayed(table.rows) && HoldsLog(table.rows, Run(qs).log)
    modifies table
    ensures table.Valid() && FullyRelayed(table.rows) && HoldsLog(table.rows, Run(qs).log) && |table.outbox| == n
    ensures Project(EventsOf(Feed(table.rows, table.origin))) == Project(EventsOf(Feed(old(table.rows), old(table.origin))))
    ensures Project(EventsOf(Feed(table.rows, table.origin))) == Project(EventsOf(Run(qs).log))
  {
    hide Run, Project, TableInv, StreamOrder, PublishedPrefix, HoldsLog;
    TableProjects(qs, table.rows, table.outbox, table.origin);
    RelayHoldsLog(table.rows, Run(qs).log);
    table.Reset();
    n := table.RelayOutbox();
    TableProjects(qs, table.rows, table.outbox, table.origin);
  }
}
