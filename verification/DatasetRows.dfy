/** The rows of the dataset in the words of the artifact records: which frames a room has, in which order, and
    which windows become rows. */
module DatasetRows {
  import opened Basics
  import opened JsonValues
  import opened DatasetWindows

  // ---------- frames ----------

  /** Where a frame comes from: the j-th room of the n-th record. */
  datatype Spot = Spot(record: nat, room: nat)

  ghost predicate IsFrameAt(records: seq<ArtifactRecord>, spot: Spot, f: Frame) {
    && spot.record < |records| && "rooms" in records[spot.record].payload
    && records[spot.record].payload["rooms"].Arr?
    && var payload := records[spot.record].payload;
       && spot.room < |payload["rooms"].items| && f.room == payload["rooms"].items[spot.room]
       && f.index == spot.record && f.path == records[spot.record].path
       && f.tick == (if "tick" in payload && payload["tick"].Num? then Some(payload["tick"].n) else None)
  }

  predicate SpotBefore(a: Spot, b: Spot) {
    a.record < b.record || (a.record == b.record && a.room < b.room)
  }

  /** Every room of every record once, record by record. */
  ghost predicate AreFrames(records: seq<ArtifactRecord>, frames: seq<Frame>, spots: seq<Spot>) {
    && |spots| == |frames| && (forall k :: 0 <= k < |frames| ==> IsFrameAt(records, spots[k], frames[k]))
    && (forall k, l :: 0 <= k < l < |spots| ==> SpotBefore(spots[k], spots[l]))
    && AllSpots(records, spots)
  }

  ghost predicate AllSpots(records: seq<ArtifactRecord>, spots: seq<Spot>) {
    forall spot, f :: IsFrameAt(records, spot, f) ==> spot in spots
  }

  function SpotsOf(n: nat, count: nat): (spots: seq<Spot>)
    ensures |spots| == count && forall j :: 0 <= j < count ==> spots[j] == Spot(n, j)
  {
    seq(count, j requires 0 <= j < count => Spot(n, j))
  }

  lemma RecordFrames(records: seq<ArtifactRecord>, n: nat)
    requires n < |records|
    ensures var own := Map(RoomsOf(records[n]), FrameOf(records[n], n));
      forall j :: 0 <= j < |own| ==> IsFrameAt(records, Spot(n, j), own[j])
    ensures forall spot, f :: IsFrameAt(records, spot, f) && spot.record == n ==> spot.room < |RoomsOf(records[n])|
  {
  }

  lemma FramesStay(records: seq<ArtifactRecord>, last: ArtifactRecord, spot: Spot, f: Frame)
    requires spot.record < |records|
    ensures IsFrameAt(records + [last], spot, f) <==> IsFrameAt(records, spot, f)
  {
    assert (records + [last])[spot.record] == records[spot.record];
  }

  lemma RecordMore(records: seq<ArtifactRecord>, last: ArtifactRecord, frames: seq<Frame>, spots: seq<Spot>)
    requires AreFrames(records, frames, spots)
    ensures var own := Map(RoomsOf(last), FrameOf(last, |records|));
      AreFrames(records + [last], frames + own, spots + SpotsOf(|records|, |own|))
  {
    var n, more := |records|, records + [last];
    var own := Map(RoomsOf(last), FrameOf(last, n));
    var extra := SpotsOf(n, |own|);
    assert more[n] == last;
    RecordFrames(more, n);
    hide RoomsOf, FrameOf;
    forall k | 0 <= k < |frames + own| ensures IsFrameAt(more, (spots + extra)[k], (frames + own)[k]) {
      if k < |frames| {
        assert IsFrameAt(records, spots[k], frames[k]);
        FramesStay(records, last, spots[k], frames[k]);
      }
    }
    forall k | 0 <= k < |spots| ensures spots[k].record < n {
      assert IsFrameAt(records, spots[k], frames[k]);
    }
    forall spot, f | IsFrameAt(more, spot, f) ensures spot in spots + extra {
      if spot.record < n {
        FramesStay(records, last, spot, f);
      } else {
        assert extra[spot.room] == spot;
      }
    }
  }

  lemma {:induction false} FramesAre(records: seq<ArtifactRecord>) returns (spots: seq<Spot>)
    ensures AreFrames(records, AllFrames(records), spots)
  {
    if records == [] {
      spots := [];
    } else {
      var front, last := records[..|records| - 1], records[|records| - 1];
      var before := FramesAre(front);
      hide AreFrames;
      RecordMore(front, last, AllFrames(front), before);
      assert records == front + [last];
      spots := before + SpotsOf(|front|, |Map(RoomsOf(last), FrameOf(last, |front|))|);
    }
  }

  // ---------- one room ----------

  predicate IsRoom(room: Json, name: string) {
    room.Obj? && "roomName" in room.fields && room.fields["roomName"] == Str(name)
  }

  function InRoom(name: string): Frame -> bool {
    (f: Frame) => IsRoom(f.room, name)
  }

  /** An earlier tick first and no tick last; then by path, and by position of the record. */
  predicate IsEarlier(a: Frame, b: Frame) {
    match (a.tick, b.tick)
    case (Some(_), None) => true
    case (None, Some(_)) => false
    case (Some(s), Some(t)) => if s != t then s < t else IsFiledBefore(a, b)
    case (None, None) => IsFiledBefore(a, b)
  }

  predicate IsFiledBefore(a: Frame, b: Frame) {
    if a.path != b.path then TextLeq(a.path, b.path) else a.index <= b.index
  }

  /** The frames of a room, each once, in order, and as they came where nothing tells them apart. */
  ghost predicate IsRoomList(frames: seq<Frame>, name: string, list: seq<Frame>, at: seq<nat>) {
    && |at| == |list| && (forall k :: 0 <= k < |at| ==>
          at[k] < |frames| && list[k] == frames[at[k]] && IsRoom(list[k].room, name))
    && (forall k, l :: 0 <= k < l < |at| ==>
          IsEarlier(list[k], list[l]) && (IsEarlier(list[l], list[k]) ==> at[k] < at[l]) && at[k] != at[l])
    && AllOfRoom(frames, name, at)
  }

  ghost predicate AllOfRoom(frames: seq<Frame>, name: string, at: seq<nat>) {
    forall i :: 0 <= i < |frames| && IsRoom(frames[i].room, name) ==> i in at
  }

  lemma TickReads(a: Frame, b: Frame)
    ensures ByTick()(a, b) <==> IsEarlier(a, b)
  {
    hide TextLeq;
  }

  lemma RoomReads(name: string, f: Frame)
    requires name != ""
    ensures OfRoom(name)(f) <==> IsRoom(f.room, name)
  {
  }

  lemma RoomListAt(frames: seq<Frame>, name: string, own: seq<Frame>, place: seq<nat>, list: seq<Frame>,
                   order: seq<nat>, at: seq<nat>)
    requires name != "" && ArePositions(frames, OfRoom(name), own, place)
    requires Arranges(own, ByTick(), list, order) && forall k :: 0 <= k < |own| ==> k in order
    requires |at| == |list| && forall k :: 0 <= k < |at| ==> at[k] == place[order[k]]
    ensures IsRoomList(frames, name, list, at)
  {
    hide ByTick, OfRoom, IsRoom, IsEarlier;
    forall k | 0 <= k < |at| ensures at[k] < |frames| && list[k] == frames[at[k]] && IsRoom(list[k].room, name) {
      assert list[k] == own[order[k]];
      RoomReads(name, list[k]);
    }
    forall k, l | 0 <= k < l < |at|
      ensures IsEarlier(list[k], list[l]) && (IsEarlier(list[l], list[k]) ==> at[k] < at[l]) && at[k] != at[l]
    {
      TickReads(list[k], list[l]);
      TickReads(list[l], list[k]);
      assert order[k] != order[l];
    }
    forall i | 0 <= i < |frames| && IsRoom(frames[i].room, name) ensures i in at {
      RoomReads(name, frames[i]);
      assert i in place;
      var l :| 0 <= l < |place| && place[l] == i;
      assert l in order;
      var k :| 0 <= k < |order| && order[k] == l;
      assert at[k] == i;
    }
  }

  /** What is collected for a name is the frames of that room. */
  lemma RoomListIs(rooms: Rooms, frames: seq<Frame>, name: string) returns (at: seq<nat>)
    requires Collected(rooms, frames) && name != ""
    ensures IsRoomList(frames, name, Listed(rooms, name), at)
  {
    hide Filter, StableSort, ByTick, OfRoom;
    var own := Filter(frames, OfRoom(name));
    var place := FilterPositions(frames, OfRoom(name));
    ByTickOrder();
    var order := SortArranges(own, ByTick());
    var list := Listed(rooms, name);
    assert list == StableSort(own, ByTick());
    at := seq(|list|, k requires 0 <= k < |list| => place[order[k]]);
    RoomListAt(frames, name, own, place, list, order, at);
  }

  // ---------- rows ----------

  /** The rows are those of the first windows that can be labelled, as many as the limit lets through; a limit
      below one lets one through. */
  ghost predicate AreFirstRows<R>(windows: seq<seq<Frame>>, annotate: seq<Frame> -> Option<R>, limit: int,
                                  rows: seq<R>, at: seq<nat>)
  {
    && |at| == |rows| && |rows| <= (if limit < 1 then 1 else limit)
    && (forall k :: 0 <= k < |at| ==> at[k] < |windows| && annotate(windows[at[k]]) == Some(rows[k]))
    && (forall k, l :: 0 <= k < l < |at| ==> at[k] < at[l])
    && NoneSkipped(windows, annotate, at, |rows| == if limit < 1 then 1 else limit)
  }

  /** Every window that can be labelled is taken, or comes after the last one that is if the limit was reached. */
  ghost predicate NoneSkipped<R>(windows: seq<seq<Frame>>, annotate: seq<Frame> -> Option<R>, at: seq<nat>,
                                 full: bool) {
    forall i :: 0 <= i < |windows| && annotate(windows[i]).Some? ==>
      i in at || (full && at != [] && i > at[|at| - 1])
  }

  lemma {:induction false} SamplesAre<R>(windows: seq<seq<Frame>>, annotate: seq<Frame> -> Option<R>)
    returns (at: seq<nat>)
    ensures var rows := FlatMap(windows, Sample(annotate));
      && |at| == |rows| && (forall k :: 0 <= k < |at| ==>
            at[k] < |windows| && annotate(windows[at[k]]) == Some(rows[k]))
      && (forall k, l :: 0 <= k < l < |at| ==> at[k] < at[l])
      && NoneSkipped(windows, annotate, at, false)
  {
    if windows == [] {
      at := [];
    } else {
      var n := |windows| - 1;
      var before := SamplesAre(windows[..n], annotate);
      at := if annotate(windows[n]).Some? then before + [n] else before;
      OneSampleMore(windows, annotate, before, at);
    }
  }

  lemma OneSampleMore<R>(windows: seq<seq<Frame>>, annotate: seq<Frame> -> Option<R>, before: seq<nat>, at: seq<nat>)
    requires windows != [] && NoneSkipped(windows[..|windows| - 1], annotate, before, false)
    requires at == if annotate(windows[|windows| - 1]).Some? then before + [|windows| - 1] else before
    ensures NoneSkipped(windows, annotate, at, false)
  {
    var n := |windows| - 1;
    forall i | 0 <= i < |windows| && annotate(windows[i]).Some? ensures i in at {
      if i < n {
        assert windows[..n][i] == windows[i];
        assert i in before;
      } else {
        assert at[|before|] == n;
      }
    }
  }

  lemma RowsAre<R>(windows: seq<seq<Frame>>, annotate: seq<Frame> -> Option<R>, limit: int) returns (at: seq<nat>)
    ensures AreFirstRows(windows, annotate, limit, Take(FlatMap(windows, Sample(annotate)), Limit(limit)), at)
  {
    var all := SamplesAre(windows, annotate);
    var rows := FlatMap(windows, Sample(annotate));
    hide FlatMap, Sample;
    at := Take(all, Limit(limit));
    TakenAre(windows, annotate, all, at, Limit(limit));
  }

  lemma TakenAre<R>(windows: seq<seq<Frame>>, annotate: seq<Frame> -> Option<R>, all: seq<nat>, at: seq<nat>, n: nat)
    requires n > 0 && at == Take(all, n) && NoneSkipped(windows, annotate, all, false)
    requires forall k, l :: 0 <= k < l < |all| ==> all[k] < all[l]
    ensures NoneSkipped(windows, annotate, at, |at| == n)
  {
    forall i | 0 <= i < |windows| && annotate(windows[i]).Some?
      ensures i in at || (|at| == n && at != [] && i > at[|at| - 1])
    {
      assert i in all;
      var k :| 0 <= k < |all| && all[k] == i;
      if k < |at| {
        assert at[k] == i;
      }
    }
  }

  function Windows(rooms: Rooms, size: nat): string -> seq<seq<Frame>>
    requires size >= 1
  {
    (name: string) => if name in rooms then IterRoomWindows(rooms[name], size) else []
  }

  /** What a run writes: room after room by name, the windows of a room in order, each long room cut into windows
      of the given size and each shorter one taken as a whole. */
  ghost predicate IsRun<R>(rows: seq<R>, records: seq<ArtifactRecord>, annotate: seq<Frame> -> Option<R>, size: nat,
                           limit: int)
    requires size >= 1
  {
    exists rooms, names ::
      && AreSortedNames(names, rooms) && AreRoomLists(rooms, records)
      && exists at :: AreFirstRows(FlatMap(names, Windows(rooms, size)), annotate, limit, rows, at)
  }

  ghost predicate AreSortedNames(names: seq<string>, rooms: Rooms) {
    && (forall i, j :: 0 <= i < j < |names| ==> names[i] != names[j] && TextLeq(names[i], names[j]))
    && (forall name :: name in names <==> name in rooms)
  }

  /** The rooms are those that some frame names, each with its frames. */
  ghost predicate AreRoomLists(rooms: Rooms, records: seq<ArtifactRecord>) {
    exists frames, spots :: AreFrames(records, frames, spots) && AreRoomListsOf(rooms, frames)
  }

  ghost predicate AreRoomListsOf(rooms: Rooms, frames: seq<Frame>) {
    && (forall name :: name in rooms <==> name != "" && exists i :: 0 <= i < |frames| && IsRoom(frames[i].room, name))
    && (forall name :: name in rooms ==> exists at :: IsRoomList(frames, name, rooms[name], at))
  }

  lemma RoomListsRead(rooms: Rooms, frames: seq<Frame>)
    requires Collected(rooms, frames)
    ensures AreRoomListsOf(rooms, frames)
  {
    forall name ensures name in rooms <==> name != "" && exists i :: 0 <= i < |frames| && IsRoom(frames[i].room, name) {
      RoomIsThere(rooms, frames, name);
    }
    forall name | name in rooms ensures exists at :: IsRoomList(frames, name, rooms[name], at) {
      RoomIsThere(rooms, frames, name);
      var at := RoomListIs(rooms, frames, name);
    }
  }

  lemma RoomIsThere(rooms: Rooms, frames: seq<Frame>, name: string)
    requires Collected(rooms, frames)
    ensures name in rooms <==> name != "" && exists i :: 0 <= i < |frames| && IsRoom(frames[i].room, name)
  {
    var list := Listed(rooms, name);
    if name != "" {
      var at := RoomListIs(rooms, frames, name);
      hide StableSort, Filter, IsRoom, AllOfRoom;
      if name in rooms {
        assert list[0] == frames[at[0]];
      }
      if i :| 0 <= i < |frames| && IsRoom(frames[i].room, name) {
        RoomHas(frames, name, at, i);
      }
    }
  }

  lemma RoomHas(frames: seq<Frame>, name: string, at: seq<nat>, i: nat)
    requires AllOfRoom(frames, name, at) && i < |frames| && IsRoom(frames[i].room, name)
    ensures at != []
  {
  }

  /** A run over the records writes what the records call for. */
  lemma RunIs<R>(rows: seq<R>, records: seq<ArtifactRecord>, annotate: seq<Frame> -> Option<R>, size: nat, limit: int)
    requires size >= 1 && AreRows(rows, records, annotate, size, limit)
    ensures IsRun(rows, records, annotate, size, limit)
  {
    hide AreFrames, AreRoomListsOf, Collected, AreFirstRows, FlatMap, Sample, Take, TextLeq, IterRoomWindows;
    var rooms, names :| Collected(rooms, AllFrames(records)) && AreNames(names, rooms)
      && rows == Take(AllSamples(rooms, names, size, annotate), Limit(limit));
    var spots := FramesAre(records);
    RoomListsRead(rooms, AllFrames(records));
    var at := RowsAre(FlatMap(names, WindowsOf(rooms, size)), annotate, limit);
    FlatMapSame(names, WindowsOf(rooms, size), Windows(rooms, size));
    assert AreSortedNames(names, rooms);
  }
}
