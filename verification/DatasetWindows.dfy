/** Cutting runtime frames into sliding windows per room, up to a number of labelled samples. */
module DatasetWindows {
  import opened Basics
  import opened JsonValues

  /** One record of an artifact file. */
  datatype ArtifactRecord = ArtifactRecord(path: string, payload: Record)

  /** One room as one record shows it. */
  datatype Frame = Frame(index: nat, path: string, room: Json, tick: Option<real>)

  // ---------- frames ----------

  function TickOf(payload: Record): Option<real> {
    if Get(payload, "tick").Num? then Some(Get(payload, "tick").n) else None
  }

  function RoomsOf(record: ArtifactRecord): seq<Json> {
    if Get(record.payload, "rooms").Arr? then Get(record.payload, "rooms").items else []
  }

  /** The name of a room object; empty if it has none that can be used. */
  function NameOf(room: Json): string {
    if Field(room, "roomName").Str? then Field(room, "roomName").s else ""
  }

  function FrameOf(record: ArtifactRecord, index: nat): Json -> Frame {
    (room: Json) => Frame(index, record.path, room, TickOf(record.payload))
  }

  /** All frames, in the order of the records and of the rooms inside them. */
  function AllFrames(records: seq<ArtifactRecord>): seq<Frame> {
    if records == [] then [] else
    var n := |records| - 1;
    AllFrames(records[..n]) + Map(RoomsOf(records[n]), FrameOf(records[n], n))
  }

  function OfRoom(name: string): Frame -> bool {
    (f: Frame) => NameOf(f.room) == name
  }

  /** By tick, frames without one last; then by path and by position. */
  function ByTick(): (Frame, Frame) -> bool {
    (a: Frame, b: Frame) =>
      if a.tick.None? != b.tick.None? then b.tick.None?
      else if a.tick.Some? && a.tick.value != b.tick.value then a.tick.value < b.tick.value
      else if a.path != b.path then TextLeq(a.path, b.path)
      else a.index <= b.index
  }

  type Rooms = map<string, seq<Frame>>

  function Listed(rooms: Rooms, name: string): seq<Frame> {
    if name in rooms then rooms[name] else []
  }

  /** The frames of every named room, as listed. */
  ghost predicate Groups(rooms: Rooms, frames: seq<Frame>) {
    && (forall name :: Listed(rooms, name) == if name == "" then [] else Filter(frames, OfRoom(name)))
    && (forall name :: name in rooms ==> rooms[name] != [])
  }

  /** The frames of every named room, in order. */
  ghost predicate Collected(rooms: Rooms, frames: seq<Frame>) {
    && (forall name ::
          Listed(rooms, name) == if name == "" then [] else StableSort(Filter(frames, OfRoom(name)), ByTick()))
    && (forall name :: name in rooms ==> rooms[name] != [])
  }

  function Append(rooms: Rooms, f: Frame): Rooms {
    if NameOf(f.room) == "" then rooms else rooms[NameOf(f.room) := Listed(rooms, NameOf(f.room)) + [f]]
  }

  lemma GroupsMore(rooms: Rooms, frames: seq<Frame>, f: Frame)
    requires Groups(rooms, frames)
    ensures Groups(Append(rooms, f), frames + [f])
  {
    assert (frames + [f])[..|frames|] == frames;
    forall name
      ensures Filter(frames + [f], OfRoom(name))
           == Filter(frames, OfRoom(name)) + if NameOf(f.room) == name then [f] else []
    {}
  }

  method AddRooms(rooms: Rooms, ghost frames: seq<Frame>, record: ArtifactRecord, index: nat) returns (r: Rooms)
    requires Groups(rooms, frames)
    ensures Groups(r, frames + Map(RoomsOf(record), FrameOf(record, index)))
  {
    hide Groups;
    r := rooms;
    var items := RoomsOf(record);
    ghost var own, all := Map(items, FrameOf(record, index)), frames;
    for i := 0 to |items|
      invariant all == frames + own[..i] && Groups(r, all)
    {
      var f := Frame(index, record.path, items[i], TickOf(record.payload));
      assert f == own[i];
      GroupsMore(r, all, f);
      all := all + [f];
      var name := NameOf(items[i]);
      if name != "" {
        r := r[name := Listed(r, name) + [f]];
      }
    }
    assert own[..|items|] == own;
  }

  method SortFrames(rooms: Rooms, ghost frames: seq<Frame>) returns (r: Rooms)
    requires Groups(rooms, frames)
    ensures Collected(r, frames) && r.Keys == rooms.Keys
  {
    r := rooms;
    var names := rooms.Keys;
    while names != {}
      invariant names <= r.Keys == rooms.Keys
      invariant forall name :: name in rooms ==>
                  r[name] == if name in names then rooms[name] else StableSort(rooms[name], ByTick())
      decreases |names|
    {
      var name :| name in names;
      names := names - {name};
      r := r[name := StableSort(r[name], ByTick())];
    }
    SortedIsCollected(rooms, r, frames);
  }

  lemma SortedIsCollected(rooms: Rooms, r: Rooms, frames: seq<Frame>)
    requires Groups(rooms, frames) && r.Keys == rooms.Keys
    requires forall name :: name in rooms ==> r[name] == StableSort(rooms[name], ByTick())
    ensures Collected(r, frames)
  {
    forall name | name in r ensures r[name] != [] {
      SortPermutes(rooms[name], ByTick());
    }
    forall name
      ensures Listed(r, name) == if name == "" then [] else StableSort(Filter(frames, OfRoom(name)), ByTick())
    {
      assert Listed(rooms, name) == if name == "" then [] else Filter(frames, OfRoom(name));
    }
  }

  method CollectRoomFrames(records: seq<ArtifactRecord>) returns (rooms: Rooms)
    ensures Collected(rooms, AllFrames(records))
  {
    rooms := map[];
    for i := 0 to |records|
      invariant Groups(rooms, AllFrames(records[..i]))
    {
      assert records[..i + 1][..i] == records[..i];
      rooms := AddRooms(rooms, AllFrames(records[..i]), records[i], i);
    }
    assert records[..|records|] == records;
    rooms := SortFrames(rooms, AllFrames(records));
  }

  lemma ByTickOrder()
    ensures TotalPreorder(ByTick())
  {
    TextLeqOrder();
  }

  /** No frame of a named room is lost or made up, and each room is in order. */
  lemma CollectingKeepsFrames(rooms: Rooms, frames: seq<Frame>, name: string)
    requires Collected(rooms, frames) && name != ""
    ensures multiset(Listed(rooms, name)) == multiset(Filter(frames, OfRoom(name)))
    ensures SortedBy(Listed(rooms, name), ByTick())
  {
    ByTickOrder();
    SortPermutes(Filter(frames, OfRoom(name)), ByTick());
    SortSorted(Filter(frames, OfRoom(name)), ByTick());
  }

  // ---------- windows ----------

  function IterRoomWindows(frames: seq<Frame>, size: nat): (windows: seq<seq<Frame>>)
    requires size >= 1
  {
    if frames == [] then [] else if |frames| <= size then [frames] else
    seq(|frames| - size + 1, i requires 0 <= i < |frames| - size + 1 => frames[i..i + size])
  }

  /** Whether window k of a long room covers frame i. */
  function CoversFrame(i: nat, size: nat): nat -> bool {
    (k: nat) => k <= i < k + size
  }

  function Positions(n: nat): (r: seq<nat>)
    ensures |r| == n && forall k :: 0 <= k < n ==> r[k] == k
  {
    seq(n, k => k)
  }

  function Min(a: int, b: int): int { if a < b then a else b }

  function Max(a: int, b: int): int { if a > b then a else b }

  /** The first m windows cover frame i as often as the range of starts allows. */
  lemma {:induction false} CoverCount(i: nat, size: nat, m: nat)
    requires size >= 1
    ensures Count(Positions(m), CoversFrame(i, size)) == Max(0, Min(i, m - 1) - Max(0, i - size + 1) + 1)
  {
    if m == 0 {
    } else {
      CoverCount(i, size, m - 1);
      assert Positions(m)[..m - 1] == Positions(m - 1);
    }
  }

  /** A room of more than `size` frames has one window per start, each `size` frames long, and every frame
      lies in as many of them as start at most `size` - 1 frames before it. A shorter room is one window. */
  lemma WindowShape(frames: seq<Frame>, size: nat, i: nat)
    requires size >= 1 && i < |frames|
    ensures var n, windows := |frames|, IterRoomWindows(frames, size);
      if n <= size then windows == [frames] else
      && |windows| == n - size + 1
      && (forall k :: 0 <= k < |windows| ==> |windows[k]| == size && forall j :: 0 <= j < size ==>
          windows[k][j] == frames[k + j])
      && Count(Positions(|windows|), CoversFrame(i, size)) == Min(i, n - size) - Max(0, i - size + 1) + 1
  {
    if |frames| > size {
      CoverCount(i, size, |frames| - size + 1);
    }
  }

  // ---------- labelled samples ----------

  /** The samples of a list of windows: those that can be labelled. */
  function Sample<R>(annotate: seq<Frame> -> Option<R>): seq<Frame> -> seq<R> {
    (window: seq<Frame>) => if annotate(window).Some? then [annotate(window).value] else []
  }

  function WindowsOf(rooms: Rooms, size: nat): string -> seq<seq<Frame>>
    requires size >= 1
  {
    (name: string) => IterRoomWindows(Listed(rooms, name), size)
  }

  /** The run without a limit. */
  function AllSamples<R>(rooms: Rooms, names: seq<string>, size: nat, annotate: seq<Frame> -> Option<R>): seq<R>
    requires size >= 1
  {
    FlatMap(FlatMap(names, WindowsOf(rooms, size)), Sample(annotate))
  }

  ghost predicate AreNames(names: seq<string>, rooms: Rooms) {
    SortedBy(names, TextLeq) && Distinct(names) && forall name :: name in names <==> name in rooms
  }

  method SortedNames(rooms: Rooms) returns (names: seq<string>)
    ensures AreNames(names, rooms)
  {
    var left, found: seq<string> := rooms.Keys, [];
    while left != {}
      invariant left <= rooms.Keys && Distinct(found) && forall name :: name in found <==>
                  name in rooms && name !in left
      decreases |left|
    {
      var name :| name in left;
      left, found := left - {name}, found + [name];
    }
    names := StableSort(found, TextLeq);
    TextLeqOrder();
    SortSorted(found, TextLeq);
    SortPermutes(found, TextLeq);
    SameMembers(names, found);
    DistinctPermutation(found, names);
  }

  function Limit(limit: int): nat {
    if limit > 1 then limit else 1
  }

  lemma NoSamples<R>(windows: seq<seq<Frame>>, annotate: seq<Frame> -> Option<R>)
    ensures FlatMap(windows[..0], Sample(annotate)) == []
  {
  }

  lemma SampleStep<R>(windows: seq<seq<Frame>>, i: nat, annotate: seq<Frame> -> Option<R>)
    requires i < |windows|
    ensures FlatMap(windows[..i + 1], Sample(annotate))
         == FlatMap(windows[..i], Sample(annotate)) + match annotate(windows[i]) case Some(row) => [row] case None => []
  {
    FlatMapStep(windows, i, Sample(annotate));
  }

  /** One room; `full` tells that the limit was reached. */
  method SampleRoom<R>(windows: seq<seq<Frame>>, annotate: seq<Frame> -> Option<R>, limit: int, before: seq<R>)
    returns (rows: seq<R>, full: bool)
    requires |before| < Limit(limit)
    ensures full ==> rows <= before + FlatMap(windows, Sample(annotate)) && |rows| == Limit(limit)
    ensures !full ==> rows == before + FlatMap(windows, Sample(annotate)) && |rows| < Limit(limit)
  {
    hide FlatMap, Sample;
    rows := before;
    NoSamples(windows, annotate);
    for i := 0 to |windows|
      invariant rows == before + FlatMap(windows[..i], Sample(annotate)) && |rows| < Limit(limit)
    {
      SampleStep(windows, i, annotate);
      var row := annotate(windows[i]);
      if row.Some? {
        rows := rows + [row.value];
        if |rows| >= limit {
          FlatMapPrefix(windows, i + 1, Sample(annotate));
          return rows, true;
        }
      }
    }
    assert windows[..|windows|] == windows;
    full := false;
  }

  lemma RoomsStep<R>(rooms: Rooms, names: seq<string>, r: nat, size: nat, annotate: seq<Frame> -> Option<R>)
    requires size >= 1 && r < |names|
    ensures AllSamples(rooms, names[..r + 1], size, annotate)
         == AllSamples(rooms, names[..r], size, annotate) + FlatMap(WindowsOf(rooms, size)(names[r]), Sample(annotate))
  {
    FlatMapStep(names, r, WindowsOf(rooms, size));
    FlatMapConcat(FlatMap(names[..r], WindowsOf(rooms, size)), WindowsOf(rooms, size)(names[r]), Sample(annotate));
  }

  lemma RoomsPrefix<R>(rooms: Rooms, names: seq<string>, r: nat, size: nat, annotate: seq<Frame> -> Option<R>)
    requires size >= 1 && r <= |names|
    ensures AllSamples(rooms, names[..r], size, annotate) <= AllSamples(rooms, names, size, annotate)
  {
    var part, all := FlatMap(names[..r], WindowsOf(rooms, size)), FlatMap(names, WindowsOf(rooms, size));
    FlatMapPrefix(names, r, WindowsOf(rooms, size));
    assert all[..|part|] == part;
    FlatMapPrefix(all, |part|, Sample(annotate));
  }

  lemma PrefixIsTake<R>(rows: seq<R>, part: seq<R>, all: seq<R>, k: nat)
    requires rows <= part <= all && |rows| == k && k > 0
    ensures rows == Take(all, k)
  {
  }

  /** Samples room by room and stops where the limit is reached. */
  method SampleRooms<R>(rooms: Rooms, names: seq<string>, annotate: seq<Frame> -> Option<R>, size: nat,
                        limit: int) returns (rows: seq<R>)
    requires size >= 1 && AreNames(names, rooms)
    ensures rows == Take(AllSamples(rooms, names, size, annotate), Limit(limit))
  {
    rows := [];
    for r := 0 to |names|
      invariant rows == AllSamples(rooms, names[..r], size, annotate) && |rows| < Limit(limit)
    {
      assert names[r] in names;
      var windows, full := IterRoomWindows(rooms[names[r]], size), false;
      assert windows == WindowsOf(rooms, size)(names[r]);
      rows, full := SampleRoom(windows, annotate, limit, rows);
      RoomsStep(rooms, names, r, size, annotate);
      if full {
        RoomsPrefix(rooms, names, r + 1, size, annotate);
        PrefixIsTake(rows, AllSamples(rooms, names[..r + 1], size, annotate), AllSamples(rooms, names, size, annotate),
                     Limit(limit));
        return;
      }
    }
    assert names[..|names|] == names;
  }

  /** What a run yields: the first samples of the unlimited run, across all rooms; a limit below one still
      lets one sample through. */
  ghost predicate AreRows<R>(rows: seq<R>, records: seq<ArtifactRecord>, annotate: seq<Frame> -> Option<R>, size: nat,
                             limit: int)
    requires size >= 1
  {
    exists rooms, names ::
      && Collected(rooms, AllFrames(records)) && AreNames(names, rooms)
      && rows == Take(AllSamples(rooms, names, size, annotate), Limit(limit))
  }

  method BuildLabeledWindows<R>(records: seq<ArtifactRecord>, annotate: seq<Frame> -> Option<R>, size: nat, limit: int)
    returns (rows: seq<R>)
    requires size >= 1
    ensures AreRows(rows, records, annotate, size, limit)
  {
    var rooms := CollectRoomFrames(records);
    var names := SortedNames(rooms);
    rows := SampleRooms(rooms, names, annotate, size, limit);
  }

  lemma SameRooms(frames: seq<Frame>, a: Rooms, b: Rooms)
    requires Collected(a, frames) && Collected(b, frames)
    ensures a == b
  {
    forall name ensures (name in a <==> name in b) && (name in a ==> a[name] == b[name]) {
      assert Listed(a, name) == Listed(b, name);
    }
  }

  /** The records determine the rooms, and the rooms the order in which they are sampled. */
  lemma RunIsDetermined(frames: seq<Frame>, a: Rooms, b: Rooms, m: seq<string>, n: seq<string>)
    requires Collected(a, frames) && Collected(b, frames) && AreNames(m, a) && AreNames(n, b)
    ensures a == b && m == n
  {
    SameRooms(frames, a, b);
    DistinctPermuted(m, n);
    TextLeqOrder();
    SortedUnique(m, n, TextLeq);
  }

  lemma TakesAgree<R>(all: seq<R>, small: nat, large: nat)
    requires 0 < small <= large
    ensures Take(all, small) <= Take(all, large)
            && (|Take(all, small)| < small ==> Take(all, small) == Take(all, large))
    ensures |Take(all, small)| == if |Take(all, large)| < small then |Take(all, large)| else small
  {
  }

  /** Two runs over the same records agree as far as the shorter one goes, and a run that stayed below its
      limit is not changed by a higher one. With the same limit they are equal. */
  lemma LimitsAgree<R>(records: seq<ArtifactRecord>, annotate: seq<Frame> -> Option<R>, size: nat, small: int,
                       large: int, fewer: seq<R>, more: seq<R>)
    requires size >= 1 && small <= large
    requires AreRows(fewer, records, annotate, size, small) && AreRows(more, records, annotate, size, large)
    ensures fewer <= more && (|fewer| < Limit(small) || small == large ==> fewer == more)
    ensures |fewer| == if |more| < Limit(small) then |more| else Limit(small)
  {
    hide Collected, AreNames, AllSamples, Take;
    var a, m :| Collected(a, AllFrames(records)) && AreNames(m, a)
        && fewer == Take(AllSamples(a, m, size, annotate), Limit(small));
    var b, n :| Collected(b, AllFrames(records)) && AreNames(n, b)
        && more == Take(AllSamples(b, n, size, annotate), Limit(large));
    RunIsDetermined(AllFrames(records), a, b, m, n);
    TakesAgree(AllSamples(a, m, size, annotate), Limit(small), Limit(large));
  }
}
