/**
 * The watcher's event loop (crates/visp-codegraph/src/watcher.rs): events are collected until the
 * debounce window elapses, only the last event of a path is kept, removals are applied first.
 */
module Watcher {
  import opened Collections
  import opened Graph
  import opened Tables
  import opened IndexRuns
  import opened IndexEdges
  import opened Index
  import opened TreeViews

  /** What the loop receives; `Quiet` marks a point where the debounce window has elapsed. */
  datatype Message = Event(path: string, kind: FileEvent) | Rescan | Degraded | Quiet

  type Entry = (string, FileEvent)

  function Read(disk: Disk, path: string): Source {
    if path in disk then disk[path] else Unreadable
  }

  function ToChange(e: Entry, disk: Disk): Change {
    Change(e.0, e.1, Read(disk, e.0))
  }

  function Changes(entries: seq<Entry>, disk: Disk): seq<Change> {
    Map(entries, (e: Entry) => ToChange(e, disk))
  }

  /** The file events among the messages, in arrival order; the other messages drive nothing. */
  function EventsOf(messages: seq<Message>): seq<Entry> {
    if messages == [] then []
    else
      EventsOf(messages[..|messages| - 1])
      + match messages[|messages| - 1]
        case Event(path, kind) => [(path, kind)]
        case _ => []
  }

  /** What a batch map holds after the events: the last one of every path. */
  function LastEvents(events: seq<Entry>): map<string, FileEvent> {
    if events == [] then map[]
    else
      var e := events[|events| - 1];
      LastEvents(events[..|events| - 1])[e.0 := e.1]
  }

  // ---- Debouncing is sound ----

  function EntryOutcome(path: string, batch: map<string, FileEvent>, disk: Disk): Option<ParseResult>
    requires path in batch
  {
    Outcome(ToChange((path, batch[path]), disk))
  }

  /** The index after a batch: its paths are parsed afresh or gone, the other files are untouched. */
  function After(index: FileIndex, batch: map<string, FileEvent>, disk: Disk): FileIndex {
    map f | f in index.Keys + batch.Keys && (f in batch ==> EntryOutcome(f, batch, disk).Some?)
      :: if f in batch then EntryOutcome(f, batch, disk).value else index[f]
  }

  lemma {:induction false} ReplayIsAfter(index: FileIndex, events: seq<Entry>, disk: Disk)
    ensures Replay(index, Changes(events, disk)) == After(index, LastEvents(events), disk)
  {
    if events == [] {
      assert After(index, map[], disk) == index;
    } else {
      var init, e := events[..|events| - 1], events[|events| - 1];
      ReplayIsAfter(index, init, disk);
      var c := ToChange(e, disk);
      assert Changes(events, disk)[..|events| - 1] == Changes(init, disk);
      AfterStep(index, LastEvents(init), e, disk);
    }
  }

  lemma AfterStep(index: FileIndex, batch: map<string, FileEvent>, e: Entry, disk: Disk)
    ensures Apply(After(index, batch, disk), ToChange(e, disk)) == After(index, batch[e.0 := e.1], disk)
  {
    hide Outcome;
  }

  ghost predicate DistinctPaths(entries: seq<Entry>) {
    forall i, j :: 0 <= i < j < |entries| ==> entries[i].0 != entries[j].0
  }

  /** Every entry of the map once. */
  ghost predicate Entries(entries: seq<Entry>, batch: map<string, FileEvent>) {
    && (forall e :: e in entries ==> e.0 in batch && batch[e.0] == e.1)
    && (forall p :: p in batch ==> (p, batch[p]) in entries)
    && DistinctPaths(entries)
  }

  lemma {:induction false} LastOfDistinct(entries: seq<Entry>)
    requires DistinctPaths(entries)
    ensures forall p :: p in LastEvents(entries) <==> exists e :: e in entries && e.0 == p
    ensures forall e :: e in entries ==> e.0 in LastEvents(entries) && LastEvents(entries)[e.0] == e.1
  {
    if entries != [] {
      var init, last := entries[..|entries| - 1], entries[|entries| - 1];
      LastOfDistinct(init);
      assert forall e :: e in entries <==> e in init || e == last;
      assert last in entries;
    }
  }

  /**
   * With file contents fixed, the last event per path in any order gives the same index as the whole
   * event sequence in arrival order.
   */
  lemma DebounceSound(index: FileIndex, events: seq<Entry>, order: seq<Entry>, disk: Disk)
    requires Entries(order, LastEvents(events))
    ensures Replay(index, Changes(order, disk)) == Replay(index, Changes(events, disk))
  {
    ReplayIsAfter(index, events, disk);
    ReplayIsAfter(index, order, disk);
    LastOfDistinct(order);
    assert LastEvents(order) == LastEvents(events);
  }

  // ---- The order within a batch ----

  function IsRemoval(): Entry -> bool {
    (e: Entry) => e.1 == Removed
  }

  function IsUpdate(): Entry -> bool {
    (e: Entry) => e.1 != Removed
  }

  /** A stable sort by "is not a removal". */
  function RemovalsFirst(entries: seq<Entry>): seq<Entry> {
    Filter(entries, IsRemoval()) + Filter(entries, IsUpdate())
  }

  lemma {:induction false} FilterDistinct(entries: seq<Entry>, p: Entry -> bool)
    requires DistinctPaths(entries)
    ensures DistinctPaths(Filter(entries, p))
  {
    if entries != [] {
      var init, last := entries[..|entries| - 1], entries[|entries| - 1];
      FilterDistinct(init, p);
      assert forall e :: e in init ==> e.0 != last.0;
      assert forall e :: e in Filter(init, p) ==> e in init;
    }
  }

  lemma ConcatDistinct(a: seq<Entry>, b: seq<Entry>)
    requires DistinctPaths(a) && DistinctPaths(b)
    requires forall x, y :: x in a && y in b ==> x.0 != y.0
    ensures DistinctPaths(a + b)
  {
    assert forall i :: 0 <= i < |a| ==> a[i] in a;
    assert forall j :: 0 <= j < |b| ==> b[j] in b;
  }

  lemma RemovalsFirstEntries(entries: seq<Entry>, batch: map<string, FileEvent>)
    requires Entries(entries, batch)
    ensures Entries(RemovalsFirst(entries), batch)
  {
    var a, b := Filter(entries, IsRemoval()), Filter(entries, IsUpdate());
    FilterDistinct(entries, IsRemoval());
    FilterDistinct(entries, IsUpdate());
    ConcatDistinct(a, b);
    assert forall e :: e in RemovalsFirst(entries) <==> e in a || e in b;
    assert forall e :: e in RemovalsFirst(entries) <==> e in entries;
    hide RemovalsFirst, DistinctPaths;
  }

  /** All removals come first, and removals and updates each keep their order. */
  lemma RemovalsComeFirst(entries: seq<Entry>)
    ensures var r := RemovalsFirst(entries);
            && |r| == |entries|
            && (forall i, j :: 0 <= i < j < |r| && r[j].1 == Removed ==> r[i].1 == Removed)
            && Filter(r, IsRemoval()) == Filter(entries, IsRemoval())
            && Filter(r, IsUpdate()) == Filter(entries, IsUpdate())
  {
    SplitSize(entries);
    PartsStay(entries);
    var a, b := Filter(entries, IsRemoval()), Filter(entries, IsUpdate());
    assert forall i :: 0 <= i < |a| ==> a[i] in a;
    assert forall i :: 0 <= i < |b| ==> b[i] in b;
    hide Filter;
  }

  lemma PartsStay(entries: seq<Entry>)
    ensures Filter(RemovalsFirst(entries), IsRemoval()) == Filter(entries, IsRemoval())
    ensures Filter(RemovalsFirst(entries), IsUpdate()) == Filter(entries, IsUpdate())
  {
    hide Filter;
    var a, b := Filter(entries, IsRemoval()), Filter(entries, IsUpdate());
    FilterConcat(a, b, IsRemoval());
    FilterConcat(a, b, IsUpdate());
    FilterAll(a, IsRemoval());
    FilterNone(b, IsRemoval());
    FilterNone(a, IsUpdate());
    FilterAll(b, IsUpdate());
  }

  lemma {:induction false} SplitSize(entries: seq<Entry>)
    ensures |Filter(entries, IsRemoval())| + |Filter(entries, IsUpdate())| == |entries|
  {
    if entries != [] {
      SplitSize(entries[..|entries| - 1]);
    }
  }

  /** Something was created or modified, and every created or modified file parses. */
  ghost predicate AllUpdatesParse(batch: map<string, FileEvent>, disk: Disk) {
    && (exists p :: p in batch && batch[p] != Removed)
    && (forall p :: p in batch && batch[p] != Removed ==> EntryOutcome(p, batch, disk).Some?)
  }

  lemma LastIsParsed(entries: seq<Entry>, batch: map<string, FileEvent>, disk: Disk)
    requires Entries(entries, batch) && AllUpdatesParse(batch, disk)
    ensures var order := RemovalsFirst(entries);
            order != [] && Outcome(ToChange(order[|order| - 1], disk)).Some?
  {
    var order := RemovalsFirst(entries);
    var p :| p in batch && batch[p] != Removed;
    var updates := Filter(entries, IsUpdate());
    assert (p, batch[p]) in updates;
    assert order[|order| - 1] == updates[|updates| - 1];
    assert updates[|updates| - 1] in updates;
  }

  // ---- Resolved after a batch ----

  /** All names are resolved after this change: it parses, or nothing is left waiting for a known name. */
  ghost predicate ResolvedAfter(t: Tables, c: Change) {
    Outcome(c).Some? || NoneWaits(t, c.file)
  }

  lemma UpdateResolvedIff(t: Tables, c: Change, u: Tables)
    requires Updated(t, c, u) && exists index :: Represents(t, index)
    ensures Complete(u) <==> ResolvedAfter(t, c)
  {
    hide Outcome, NoneWaits, Complete, DeleteFileData;
    var index :| Represents(t, index);
    if Outcome(c).Some? {
      UpdateRefines(t, index, c, u);
    } else {
      RemovalCompleteIff(t, c.file);
    }
  }

  lemma ParsedResolves(t: Tables, c: Change)
    requires Outcome(c).Some?
    ensures ResolvedAfter(t, c)
  {
  }

  lemma NotEmpty(order: seq<Entry>, batch: map<string, FileEvent>)
    requires Entries(order, batch) && batch != map[]
    ensures order != []
  {
    var p :| p in batch;
    assert (p, batch[p]) in order;
  }

  /** The last of the order; what comes before it are the other entries. */
  lemma LastInOrder(entries: seq<Entry>, order: seq<Entry>, batch: map<string, FileEvent>)
    requires Entries(entries, batch) && order == RemovalsFirst(entries) && Entries(order, batch) && order != []
    ensures var last := order[|order| - 1];
            && last.0 in batch && batch[last.0] == last.1
            && LastEvents(order[..|order| - 1]) == batch - {last.0}
            && (last.1 == Removed ==> forall p :: p in batch ==> batch[p] == Removed)
  {
    hide RemovalsFirst, LastEvents;
    OthersBefore(order, batch);
    if order[|order| - 1].1 == Removed {
      NoUpdates(entries);
      hide Entries;
      AllEntries(entries, batch);
    }
  }

  lemma AllEntries(entries: seq<Entry>, batch: map<string, FileEvent>)
    requires Entries(entries, batch) && forall e :: e in entries ==> e.1 == Removed
    ensures forall p :: p in batch ==> batch[p] == Removed
  {
    forall p | p in batch
      ensures batch[p] == Removed
    {
      assert (p, batch[p]) in entries;
    }
  }

  lemma OthersBefore(order: seq<Entry>, batch: map<string, FileEvent>)
    requires Entries(order, batch) && order != []
    ensures var last := order[|order| - 1];
            last.0 in batch && batch[last.0] == last.1 && LastEvents(order[..|order| - 1]) == batch - {last.0}
  {
    var init, last := order[..|order| - 1], order[|order| - 1];
    assert last in order;
    InitEntries(order, batch, last.0);
    LastOfDistinct(init);
    hide Entries, DistinctPaths, LastEvents;
    forall p
      ensures p in LastEvents(init) <==> p in batch - {last.0}
      ensures p in LastEvents(init) ==> LastEvents(init)[p] == batch[p]
    {
      InitEntries(order, batch, p);
    }
  }

  lemma InitEntries(order: seq<Entry>, batch: map<string, FileEvent>, p: string)
    requires Entries(order, batch) && order != []
    ensures var init, last := order[..|order| - 1], order[|order| - 1];
            && DistinctPaths(init)
            && ((exists e :: e in init && e.0 == p) <==> p in batch && p != last.0)
            && (forall e :: e in init && e.0 == p ==> p in batch && batch[p] == e.1)
  {
    var init, last := order[..|order| - 1], order[|order| - 1];
    assert forall e :: e in order <==> e in init || e == last;
    if p in batch && p != last.0 {
      assert (p, batch[p]) in init;
    }
  }

  /** If the order ends with a removal there is nothing else in it. */
  lemma NoUpdates(entries: seq<Entry>)
    requires RemovalsFirst(entries) != [] && RemovalsFirst(entries)[|RemovalsFirst(entries)| - 1].1 == Removed
    ensures forall e :: e in entries ==> e.1 == Removed
  {
    if Filter(entries, IsUpdate()) != [] {
      LastIsUpdate(entries);
      assert false;
    }
    forall e | e in entries
      ensures e.1 == Removed
    {
      assert IsUpdate()(e) ==> e in Filter(entries, IsUpdate());
    }
  }

  lemma LastIsUpdate(entries: seq<Entry>)
    requires Filter(entries, IsUpdate()) != []
    ensures RemovalsFirst(entries) != [] && RemovalsFirst(entries)[|RemovalsFirst(entries)| - 1].1 != Removed
  {
    var updates := Filter(entries, IsUpdate());
    assert updates[|updates| - 1] in updates;
  }

  class Watcher {
    const indexer: Indexer

    constructor (indexer: Indexer)
      ensures this.indexer == indexer
    {
      this.indexer := indexer;
    }

    /** The entries of the batch map, in whatever order its iterator yields them. */
    method Collect(batch: map<string, FileEvent>) returns (entries: seq<Entry>)
      ensures Entries(entries, batch)
    {
      entries := [];
      var todo := batch.Keys;
      while todo != {}
        invariant todo <= batch.Keys
        invariant forall e :: e in entries ==> e.0 in batch.Keys - todo && batch[e.0] == e.1
        invariant forall p :: p in batch.Keys - todo ==> (p, batch[p]) in entries
        invariant DistinctPaths(entries)
        decreases |todo|
      {
        var p :| p in todo;
        entries := entries + [(p, batch[p])];
        todo := todo - {p};
      }
    }

    /**
     * Updates the files one by one; an update that fails is reported and skipped. `before` is the
     * state before the last update, which alone decides whether all names are resolved afterwards.
     */
    method ApplyInOrder(order: seq<Entry>, disk: Disk, ghost index: FileIndex) returns (ghost before: Tables)
      requires Represents(indexer.store.Contents(), index)
      modifies indexer.store
      ensures Represents(indexer.store.Contents(), Replay(index, Changes(order, disk)))
      ensures order != [] ==> Represents(before, Replay(index, Changes(order[..|order| - 1], disk)))
      ensures order != [] ==>
                var last, now := ToChange(order[|order| - 1], disk), indexer.store.Contents();
                Updated(before, last, now) && (Complete(now) <==> ResolvedAfter(before, last))
    {
      hide Represents, Updated, Complete, Outcome, Parse, Sound, ResolvedAfter;
      ghost var changes := Changes(order, disk);
      before := indexer.store.Contents();
      for k := 0 to |order|
        invariant Represents(indexer.store.Contents(), Replay(index, changes[..k]))
        invariant k > 0 ==> Represents(before, Replay(index, changes[..k - 1]))
        invariant k > 0 ==>
                    var now := indexer.store.Contents();
                    Updated(before, changes[k - 1], now) && (Complete(now) <==> ResolvedAfter(before, changes[k - 1]))
      {
        before := indexer.store.Contents();
        RepresentsSound(before, Replay(index, changes[..k]));
        var ok := indexer.UpdateFile(ToChange(order[k], disk));
        UpdateRefines(before, Replay(index, changes[..k]), changes[k], indexer.store.Contents());
        UpdateResolvedIff(before, changes[k], indexer.store.Contents());
        ReplayStep(index, changes, k);
      }
      assert changes[..|order|] == changes;
      assert order != [] ==> Changes(order[..|order| - 1], disk) == changes[..|order| - 1];
    }

    /**
     * Applies a batch, removals first. Whether all names are resolved afterwards depends on the last
     * update alone, from the state `before` it; when every update of the batch parses they are.
     */
    method ProcessBatch(batch: map<string, FileEvent>, disk: Disk, ghost index: FileIndex)
      returns (ghost last: Entry, ghost before: Tables)
      requires Represents(indexer.store.Contents(), index)
      modifies indexer.store
      ensures Represents(indexer.store.Contents(), After(index, batch, disk))
      ensures batch != map[] ==>
                && last.0 in batch && batch[last.0] == last.1
                && (last.1 == Removed ==> forall p :: p in batch ==> batch[p] == Removed)
                && Represents(before, After(index, batch - {last.0}, disk))
                && Updated(before, ToChange(last, disk), indexer.store.Contents())
                && (Complete(indexer.store.Contents()) <==> ResolvedAfter(before, ToChange(last, disk)))
      ensures AllUpdatesParse(batch, disk) ==> Complete(indexer.store.Contents())
    {
      hide Represents, Updated, Complete, Outcome, After, RemovalsFirst, AllUpdatesParse, ResolvedAfter;
      var entries := Collect(batch);
      var order := RemovalsFirst(entries);
      RemovalsFirstEntries(entries, batch);
      before := ApplyInOrder(order, disk, index);
      last := ("", Removed);
      if batch != map[] {
        NotEmpty(order, batch);
        last := order[|order| - 1];
        LastInOrder(entries, order, batch);
        ReplayIsAfter(index, order[..|order| - 1], disk);
      }
      ReplayIsAfter(index, order, disk);
      LastOfDistinct(order);
      assert LastEvents(order) == batch;
      if AllUpdatesParse(batch, disk) {
        LastIsParsed(entries, batch, disk);
        ParsedResolves(before, ToChange(order[|order| - 1], disk));
      }
    }

    /** Collects until the window elapses or the channel closes; `i` is where collecting stopped. */
    method CollectBatch(messages: seq<Message>, start: nat) returns (batch: map<string, FileEvent>, i: nat)
      requires start < |messages| && messages[start].Event?
      ensures start < i <= |messages|
      ensures batch == LastEvents(EventsBetween(messages, start, i))
    {
      batch := map[];
      i := start;
      assert messages[start..start] == [];
      while i < |messages| && !messages[i].Quiet?
        invariant start <= i <= |messages|
        invariant batch == LastEvents(EventsBetween(messages, start, i))
      {
        BetweenStep(messages, start, i);
        if messages[i].Event? {
          batch := batch[messages[i].path := messages[i].kind];
        }
        i := i + 1;
      }
    }

    /**
     * The event loop until the channel closes; `disks(i)` is what the files hold when the batch that
     * ends at position i reads them. However the events fall into debounce windows, the tables end up
     * showing what all events applied one by one in arrival order would show, with every file as it
     * was read at some point after its last event.
     */
    method ConsumeEvents(messages: seq<Message>, disks: nat -> Disk, ghost index: FileIndex) returns (ghost seen: Disk)
      requires Represents(indexer.store.Contents(), index)
      modifies indexer.store
      ensures Represents(indexer.store.Contents(), Replay(index, Changes(EventsOf(messages), seen)))
      ensures ReadLate(messages, |messages|, disks, seen)
      ensures forall p :: ShownLast(messages, disks, index, indexer.store.Contents(), p)
    {
      hide Represents, After, EventsOf, LastEvents, Replay, Changes, ReadLate, ShownLast;
      var i := 0;
      seen := map[];
      NoEvents(index, messages, disks);
      while i < |messages|
        invariant i <= |messages|
        invariant Represents(indexer.store.Contents(), Replay(index, Changes(EventsOf(messages[..i]), seen)))
        invariant ReadLate(messages, i, disks, seen)
      {
        if !messages[i].Event? {
          // still waiting for the first file event
          EventsStep(messages, i);
          StillReadLate(messages, i, disks, seen);
          i := i + 1;
        } else {
          var batch, next := CollectBatch(messages, i);
          ghost var shown := Replay(index, Changes(EventsOf(messages[..i]), seen));
          ghost var _, _ := ProcessBatch(batch, disks(next), shown);
          BatchIsReplayed(index, messages, i, next, seen, disks(next));
          BatchReadLate(messages, i, next, disks, seen);
          seen := Reread(seen, batch, disks(next));
          i := next;
        }
      }
      assert messages[..|messages|] == messages;
      AllShownLast(messages, disks, seen, index, indexer.store.Contents());
    }
  }

  // ---- What each file shows ----

  /** After its last event a file shows what its tree said when it was read, or nothing if it was removed. */
  ghost predicate ShownLast(messages: seq<Message>, disks: nat -> Disk, index: FileIndex, t: Tables, p: string) {
    && (forall i :: LastEvent(messages, p, i) ==>
          if messages[i].kind == Removed then View(t, p) == NOTHING
          else exists k :: i < k <= |messages| && View(t, p) == DiskView(disks(k), p))
    && (NoEvent(messages, p, 0, |messages|) ==> View(t, p) == Shows(index, p))
  }

  ghost predicate LastEvent(messages: seq<Message>, p: string, i: int) {
    && 0 <= i < |messages| && messages[i].Event? && messages[i].path == p
    && NoEvent(messages, p, i + 1, |messages|)
  }

  lemma {:induction false} LastEventIs(messages: seq<Message>, p: string, i: int)
    requires LastEvent(messages, p, i)
    ensures p in LastEvents(EventsOf(messages)) && LastEvents(EventsOf(messages))[p] == messages[i].kind
    decreases |messages|
  {
    var init, last := messages[..|messages| - 1], messages[|messages| - 1];
    var events := EventsOf(init);
    if last.Event? {
      assert EventsOf(messages) == events + [(last.path, last.kind)];
      assert (events + [(last.path, last.kind)])[..|events|] == events;
    } else {
      assert EventsOf(messages) == events;
    }
    if i < |messages| - 1 {
      assert LastEvent(init, p, i);
      LastEventIs(init, p, i);
    }
  }

  lemma {:induction false} NoEventIs(messages: seq<Message>, p: string)
    requires NoEvent(messages, p, 0, |messages|)
    ensures p !in LastEvents(EventsOf(messages))
    decreases |messages|
  {
    if messages != [] {
      var init, last := messages[..|messages| - 1], messages[|messages| - 1];
      var events := EventsOf(init);
      assert NoEvent(init, p, 0, |init|);
      NoEventIs(init, p);
      if last.Event? {
        assert EventsOf(messages) == events + [(last.path, last.kind)];
        assert (events + [(last.path, last.kind)])[..|events|] == events;
      } else {
        assert EventsOf(messages) == events;
      }
    }
  }

  lemma ReadShows(disk: Disk, p: string)
    ensures SourceView(p, Read(disk, p)) == DiskView(disk, p)
  {
    hide TreeView;
  }

  lemma AfterShows(index: FileIndex, batch: map<string, FileEvent>, disk: Disk, p: string)
    ensures Shows(After(index, batch, disk), p)
         == if p !in batch then Shows(index, p) else if batch[p] == Removed then NOTHING
            else SourceView(p, Read(disk, p))
  {
    hide Parse, SourceView, Read;
    if p in batch {
      ParseShowsSource(p, Read(disk, p));
    }
  }

  lemma FileShownLast(
    messages: seq<Message>, disks: nat -> Disk, seen: Disk, index: FileIndex, t: Tables, p: string)
    requires Represents(t, Replay(index, Changes(EventsOf(messages), seen)))
    requires ReadLate(messages, |messages|, disks, seen)
    ensures ShownLast(messages, disks, index, t, p)
  {
    var batch := LastEvents(EventsOf(messages));
    assert messages[..|messages|] == messages;
    ReplayIsAfter(index, EventsOf(messages), seen);
    AfterShows(index, batch, seen, p);
    assert View(t, p) == Shows(After(index, batch, seen), p);
    hide EventsOf, LastEvents, Replay, Changes, After, View, Shows, SourceView, DiskView, Read;
    forall i | LastEvent(messages, p, i)
      ensures if messages[i].kind == Removed then View(t, p) == NOTHING
              else exists k :: i < k <= |messages| && View(t, p) == DiskView(disks(k), p)
    {
      LastEventIs(messages, p, i);
      var k :| 0 <= k <= |messages| && NoEvent(messages, p, k, |messages|) && Read(seen, p) == Read(disks(k), p);
      ReadShows(disks(k), p);
    }
    if NoEvent(messages, p, 0, |messages|) {
      NoEventIs(messages, p);
    }
  }

  lemma AllShownLast(messages: seq<Message>, disks: nat -> Disk, seen: Disk, index: FileIndex, t: Tables)
    requires Represents(t, Replay(index, Changes(EventsOf(messages), seen)))
    requires ReadLate(messages, |messages|, disks, seen)
    ensures forall p :: ShownLast(messages, disks, index, t, p)
  {
    hide *;
    forall p
      ensures ShownLast(messages, disks, index, t, p)
    {
      FileShownLast(messages, disks, seen, index, t, p);
    }
  }

  // ---- Reading files at different times ----

  /** What was read of each file last, after a batch has read its files. */
  function Reread(seen: Disk, batch: map<string, FileEvent>, disk: Disk): Disk {
    map p | p in seen.Keys + disk.Keys && (if p in batch then p in disk else p in seen)
      :: if p in batch && p in disk then disk[p] else if p in seen then seen[p] else Unreadable
  }

  lemma RereadMeans(seen: Disk, batch: map<string, FileEvent>, disk: Disk, p: string)
    ensures Read(Reread(seen, batch, disk), p) == Read(if p in batch then disk else seen, p)
  {
  }

  ghost predicate NoEvent(messages: seq<Message>, p: string, i: nat, j: nat)
    requires j <= |messages|
  {
    forall k :: i <= k < j ==> !(messages[k].Event? && messages[k].path == p)
  }

  /** Every file with an event among the first `i` messages was last read at or after its last event. */
  ghost predicate ReadLate(messages: seq<Message>, i: nat, disks: nat -> Disk, seen: Disk)
    requires i <= |messages|
  {
    forall p :: p in LastEvents(EventsOf(messages[..i])) ==>
      exists k :: 0 <= k <= i && NoEvent(messages, p, k, i) && Read(seen, p) == Read(disks(k), p)
  }

  lemma StillReadLate(messages: seq<Message>, i: nat, disks: nat -> Disk, seen: Disk)
    requires i < |messages| && !messages[i].Event? && ReadLate(messages, i, disks, seen)
    ensures ReadLate(messages, i + 1, disks, seen)
  {
    EventsStep(messages, i);
    hide EventsOf, LastEvents, Read;
    forall p | p in LastEvents(EventsOf(messages[..i]))
      ensures exists k :: 0 <= k <= i + 1 && NoEvent(messages, p, k, i + 1) && Read(seen, p) == Read(disks(k), p)
    {
      var k :| 0 <= k <= i && NoEvent(messages, p, k, i) && Read(seen, p) == Read(disks(k), p);
      assert NoEvent(messages, p, k, i + 1);
    }
  }

  lemma {:induction false} LastEventsConcat(a: seq<Entry>, b: seq<Entry>)
    ensures LastEvents(a + b) == LastEvents(a) + LastEvents(b)
  {
    if b == [] {
      assert a + b == a;
    } else {
      assert (a + b)[..|a + b| - 1] == a + b[..|b| - 1];
      LastEventsConcat(a, b[..|b| - 1]);
    }
  }

  /** A path outside the window's batch has no event in the window. */
  lemma {:induction false} OutsideBatch(messages: seq<Message>, i: nat, j: nat, p: string)
    requires i <= j <= |messages| && p !in LastEvents(EventsBetween(messages, i, j))
    ensures NoEvent(messages, p, i, j)
    decreases j
  {
    if i < j {
      BetweenStep(messages, i, j - 1);
      hide LastEvents, EventsBetween;
      OutsideBatch(messages, i, j - 1, p);
    }
  }

  lemma BatchReadLate(messages: seq<Message>, i: nat, j: nat, disks: nat -> Disk, seen: Disk)
    requires i <= j <= |messages| && ReadLate(messages, i, disks, seen)
    ensures ReadLate(messages, j, disks, Reread(seen, LastEvents(EventsBetween(messages, i, j)), disks(j)))
  {
    var batch := LastEvents(EventsBetween(messages, i, j));
    var now := Reread(seen, batch, disks(j));
    SplitEvents(messages, i, j);
    LastEventsConcat(EventsOf(messages[..i]), EventsBetween(messages, i, j));
    hide EventsOf, LastEvents, EventsBetween, Read, Reread;
    forall p | p in LastEvents(EventsOf(messages[..j]))
      ensures exists k :: 0 <= k <= j && NoEvent(messages, p, k, j) && Read(now, p) == Read(disks(k), p)
    {
      RereadMeans(seen, batch, disks(j), p);
      if p in batch {
        assert NoEvent(messages, p, j, j);
      } else {
        var k :| 0 <= k <= i && NoEvent(messages, p, k, i) && Read(seen, p) == Read(disks(k), p);
        OutsideBatch(messages, i, j, p);
        assert NoEvent(messages, p, k, j);
      }
    }
  }

  /** Reading one batch more is one pass with what was read last. */
  lemma AfterAgain(
    index: FileIndex, first: map<string, FileEvent>, seen: Disk, batch: map<string, FileEvent>, disk: Disk)
    ensures After(After(index, first, seen), batch, disk) == After(index, first + batch, Reread(seen, batch, disk))
  {
    var left, right := After(After(index, first, seen), batch, disk),
      After(index, first + batch, Reread(seen, batch, disk));
    hide Outcome, Read, Reread;
    forall p
      ensures p in left <==> p in right
      ensures p in left ==> left[p] == right[p]
    {
      RereadMeans(seen, batch, disk, p);
      if p in batch {
        assert EntryOutcome(p, batch, disk) == EntryOutcome(p, first + batch, Reread(seen, batch, disk));
      } else if p in first {
        assert EntryOutcome(p, first, seen) == EntryOutcome(p, first + batch, Reread(seen, batch, disk));
      }
    }
  }

  /** If every file's last read found its final contents, the outcome is that of the final contents. */
  lemma ConvergesToFinal(index: FileIndex, messages: seq<Message>, disks: nat -> Disk, seen: Disk, disk: Disk)
    requires ReadLate(messages, |messages|, disks, seen)
    requires forall p, k ::
               0 <= k <= |messages| && NoEvent(messages, p, k, |messages|) && p in LastEvents(EventsOf(messages)) ==>
                 Read(disks(k), p) == Read(disk, p)
    ensures Replay(index, Changes(EventsOf(messages), seen)) == Replay(index, Changes(EventsOf(messages), disk))
  {
    assert messages[..|messages|] == messages;
    hide EventsOf, LastEvents, Read, Replay;
    var events := EventsOf(messages);
    forall e | e in events
      ensures ToChange(e, seen) == ToChange(e, disk)
    {
      HasLast(events, e);
      var k :| 0 <= k <= |messages| && NoEvent(messages, e.0, k, |messages|) && Read(seen, e.0) == Read(disks(k), e.0);
    }
    assert Changes(events, seen) == Changes(events, disk);
  }

  lemma {:induction false} HasLast(events: seq<Entry>, e: Entry)
    requires e in events
    ensures e.0 in LastEvents(events)
  {
    var init, last := events[..|events| - 1], events[|events| - 1];
    if e != last {
      assert e in init;
      HasLast(init, e);
    }
  }

  lemma NoEvents(index: FileIndex, messages: seq<Message>, disks: nat -> Disk)
    ensures Replay(index, Changes(EventsOf(messages[..0]), map[])) == index && ReadLate(messages, 0, disks, map[])
  {
  }

  lemma ReplayStep(index: FileIndex, changes: seq<Change>, k: nat)
    requires k < |changes|
    ensures Replay(index, changes[..k + 1]) == Apply(Replay(index, changes[..k]), changes[k])
  {
    assert changes[..k + 1][..k] == changes[..k];
  }

  /** Applying the batch collected between two positions is replaying the events between them. */
  lemma BatchIsReplayed(index: FileIndex, messages: seq<Message>, i: nat, j: nat, seen: Disk, disk: Disk)
    requires i <= j <= |messages|
    ensures var batch := LastEvents(EventsBetween(messages, i, j));
            After(Replay(index, Changes(EventsOf(messages[..i]), seen)), batch, disk)
            == Replay(index, Changes(EventsOf(messages[..j]), Reread(seen, batch, disk)))
  {
    hide After, EventsOf, LastEvents, Replay, Reread;
    var before, events := EventsOf(messages[..i]), EventsBetween(messages, i, j);
    var now := Reread(seen, LastEvents(events), disk);
    ReplayIsAfter(index, before, seen);
    ReplayIsAfter(index, EventsOf(messages[..j]), now);
    SplitEvents(messages, i, j);
    LastEventsConcat(before, events);
    AfterAgain(index, LastEvents(before), seen, LastEvents(events), disk);
  }

  function EventsBetween(messages: seq<Message>, i: nat, j: nat): seq<Entry>
    requires i <= j <= |messages|
  {
    EventsOf(messages[i..j])
  }

  lemma EventsStep(messages: seq<Message>, i: nat)
    requires i < |messages| && !messages[i].Event?
    ensures EventsOf(messages[..i + 1]) == EventsOf(messages[..i])
  {
    assert messages[..i + 1][..i] == messages[..i];
  }

  lemma BetweenStep(messages: seq<Message>, start: nat, i: nat)
    requires start <= i < |messages|
    ensures var m, before := messages[i], LastEvents(EventsBetween(messages, start, i));
            LastEvents(EventsBetween(messages, start, i + 1)) == if m.Event? then before[m.path := m.kind] else before
  {
    var before, after := EventsBetween(messages, start, i), EventsBetween(messages, start, i + 1);
    assert messages[start..i + 1][..i - start] == messages[start..i];
    if messages[i].Event? {
      assert after == before + [(messages[i].path, messages[i].kind)];
      assert after[..|after| - 1] == before;
    } else {
      assert after == before;
    }
  }

  lemma {:induction false} SplitEvents(messages: seq<Message>, i: nat, j: nat)
    requires i <= j <= |messages|
    ensures EventsOf(messages[..j]) == EventsOf(messages[..i]) + EventsBetween(messages, i, j)
    decreases j
  {
    if i < j {
      SplitEvents(messages, i, j - 1);
      assert messages[..j][..j - 1] == messages[..j - 1];
      assert messages[i..j][..j - i - 1] == messages[i..j - 1];
    } else {
      assert messages[i..j] == [];
    }
  }

  lemma RepresentsSound(t: Tables, index: FileIndex)
    requires Represents(t, index)
    ensures Sound(t)
  {
  }
}
