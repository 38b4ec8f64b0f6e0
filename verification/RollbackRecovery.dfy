/** Waiting for rooms to recover after a rollback: what a monitor reading proves, and the polling loop. */
module RollbackRecovery {
  import opened Basics
  import opened JsonValues
  import opened RollbackTriggers

  // ---------- one reading ----------

  /** Numbers count as they are and strings by their numeric value, if they have one; booleans do not count. */
  function NumberOrNone(value: Json, num: string -> Option<real>): Option<real> {
    match value
    case Num(n) => Some(n)
    case Str(s) => num(s)
    case _ => None
  }

  function FirstNumber(payload: Record, keys: seq<string>, num: string -> Option<real>): Option<real> {
    if keys == [] then None else
    var value := NumberOrNone(Get(payload, keys[0]), num);
    if value.Some? then value else FirstNumber(payload, keys[1..], num)
  }

  const SPAWN_KEYS: seq<string> := ["owned_spawns", "ownedSpawnCount", "spawns", "spawnCount"]
  const CREEP_KEYS: seq<string> := ["owned_creeps", "ownedCreeps", "ownedCreepCount", "creeps", "creepCount"]

  function IsObject(): Json -> bool {
    (v: Json) => v.Obj?
  }

  function RoomsUnder(payload: Record, key: string): (rooms: seq<Json>)
    ensures forall r :: r in rooms ==> r.Obj? && Get(payload, key).Arr? && r in Get(payload, key).items
  {
    if !Get(payload, key).Arr? then [] else
    FilterMembers(Get(payload, key).items, IsObject());
    Filter(Get(payload, key).items, IsObject())
  }

  /** The room objects of a summary or alert; a payload that carries counts itself stands for one room. */
  function RecoveryCandidates(payload: Record): (rooms: seq<Json>)
    ensures forall r :: r in rooms ==> r.Obj?
    ensures forall i :: 0 <= i < |rooms| ==> rooms[i].Obj?
  {
    if RoomsUnder(payload, "room_summaries") != [] then RoomsUnder(payload, "room_summaries")
    else if RoomsUnder(payload, "rooms") != [] then RoomsUnder(payload, "rooms")
    else if "owned_spawns" in payload || "owned_creeps" in payload || "spawns" in payload || "creeps" in payload
    then [Obj(payload)] else []
  }

  predicate RoomPayloadMatches(room: Record, t: RoomTarget) {
    || Get(room, "room") in [Str(Format(t)), Str(t.room)]
    || Get(room, "key") in [Str(Format(t)), Str(t.room)]
    || ((if "name" in room then room["name"] else Get(room, "roomName")) == Str(t.room)
        && Get(room, "shard") in [Null, Str(t.shard)])
  }

  function MatchesTarget(t: RoomTarget): Json -> bool {
    (v: Json) => v.Obj? && RoomPayloadMatches(v.fields, t)
  }

  datatype Status = NotFound | Counts(spawns: Option<real>, creeps: Option<real>)

  predicate AtLeastOne(n: Option<real>) {
    n.Some? && n.value >= 1.0
  }

  predicate IsRecovered(s: Status) {
    s.Counts? && AtLeastOne(s.spawns) && AtLeastOne(s.creeps)
  }

  /** The first matching room decides; a lone room counts as the target whatever it is called. */
  function RecoveryStatus(payload: Record, t: RoomTarget, num: string -> Option<real>): Status {
    var candidates := RecoveryCandidates(payload);
    var matched := Filter(candidates, MatchesTarget(t));
    var rooms := if matched == [] && |candidates| == 1 then candidates else matched;
    if rooms == [] then NotFound else
    FilterMembers(candidates, MatchesTarget(t));
    assert rooms[0] in rooms;
    Counts(FirstNumber(rooms[0].fields, SPAWN_KEYS, num), FirstNumber(rooms[0].fields, CREEP_KEYS, num))
  }

  predicate Recovered(payload: Record, t: RoomTarget, num: string -> Option<real>) {
    IsRecovered(RecoveryStatus(payload, t, num))
  }

  predicate IsPopulated(room: Record, num: string -> Option<real>) {
    AtLeastOne(FirstNumber(room, SPAWN_KEYS, num)) && AtLeastOne(FirstNumber(room, CREEP_KEYS, num))
  }

  /** A room listed as the target has a spawn and a creep. */
  ghost predicate SeenPopulated(payload: Record, t: RoomTarget, num: string -> Option<real>) {
    exists room ::
      && room in RecoveryCandidates(payload) && RoomPayloadMatches(room.fields, t)
      && IsPopulated(room.fields, num)
  }

  /** The only room listed is some other one, or has no name. */
  predicate LoneStranger(payload: Record, t: RoomTarget) {
    var rooms := RecoveryCandidates(payload);
    |rooms| == 1 && !RoomPayloadMatches(rooms[0].fields, t)
  }

  /** If rooms are listed as the target, the first of them decides. */
  lemma FirstMatchDecides(payload: Record, t: RoomTarget, num: string -> Option<real>, i: nat)
    requires i < |RecoveryCandidates(payload)| && RoomPayloadMatches(RecoveryCandidates(payload)[i].fields, t)
    requires forall j :: 0 <= j < i ==> !RoomPayloadMatches(RecoveryCandidates(payload)[j].fields, t)
    ensures Recovered(payload, t, num) <==> IsPopulated(RecoveryCandidates(payload)[i].fields, num)
  {
    FirstOfFilter(RecoveryCandidates(payload), MatchesTarget(t), i);
  }

  /** A lone room that is not the target decides for it all the same. */
  lemma LoneRoomDecides(payload: Record, t: RoomTarget, num: string -> Option<real>, room: Json)
    requires RecoveryCandidates(payload) == [room] && room.Obj? && !RoomPayloadMatches(room.fields, t)
    ensures Recovered(payload, t, num) <==> IsPopulated(room.fields, num)
  {
    assert [room][..0] == [];
    assert Filter([room], MatchesTarget(t)) == [];
  }

  /** No room listed as the target, and not exactly one room listed: nothing is proved. */
  lemma NobodyDecides(payload: Record, t: RoomTarget, num: string -> Option<real>)
    requires |RecoveryCandidates(payload)| != 1
    requires forall room :: room in RecoveryCandidates(payload) ==> !RoomPayloadMatches(room.fields, t)
    ensures !Recovered(payload, t, num)
  {
    FilterNone(RecoveryCandidates(payload), MatchesTarget(t));
  }

  /** A recovered target was seen populated exactly unless a lone other room spoke for it. */
  lemma RecoveryIsEvidence(payload: Record, t: RoomTarget, num: string -> Option<real>)
    ensures Recovered(payload, t, num) ==> (SeenPopulated(payload, t, num) <==> !LoneStranger(payload, t))
    ensures (Recovered(payload, t, num) ==> SeenPopulated(payload, t, num))
       <==> !(LoneStranger(payload, t) && IsPopulated(RecoveryCandidates(payload)[0].fields, num))
  {
    var rooms := RecoveryCandidates(payload);
    if LoneStranger(payload, t) {
      assert rooms == [rooms[0]];
      LoneRoomDecides(payload, t, num, rooms[0]);
      assert forall room :: room in rooms ==> room == rooms[0];
    } else if i: nat :| i < |rooms| && MatchesTarget(t)(rooms[i]) {
      var k := FirstIndex(rooms, MatchesTarget(t), i);
      forall j | 0 <= j < k ensures !RoomPayloadMatches(rooms[j].fields, t) {
        assert !MatchesTarget(t)(rooms[j]);
      }
      FirstMatchDecides(payload, t, num, k);
    } else {
      forall room | room in rooms ensures !RoomPayloadMatches(room.fields, t) {
        var j :| 0 <= j < |rooms| && rooms[j] == room;
        assert !MatchesTarget(t)(rooms[j]);
      }
      NobodyDecides(payload, t, num);
    }
  }

  /** In particular, if the target is listed and everything listed as the target is populated, it counts as
      recovered. */
  lemma PopulatedRoomsRecover(payload: Record, t: RoomTarget, num: string -> Option<real>, room: Json)
    requires room in RecoveryCandidates(payload) && RoomPayloadMatches(room.fields, t)
    requires forall r :: r in RecoveryCandidates(payload) && RoomPayloadMatches(r.fields, t) ==>
               IsPopulated(r.fields, num)
    ensures Recovered(payload, t, num)
  {
    var rooms := RecoveryCandidates(payload);
    var i: nat :| i < |rooms| && rooms[i] == room;
    var k := FirstIndex(rooms, MatchesTarget(t), i);
    forall j | 0 <= j < k ensures !RoomPayloadMatches(rooms[j].fields, t) {
      assert !MatchesTarget(t)(rooms[j]);
    }
    assert rooms[k] in rooms;
    FirstMatchDecides(payload, t, num, k);
  }

  /** A payload that only carries counts, without a name, proves recovery of every room. */
  lemma NamelessCountsRecoverAll(t: RoomTarget, num: string -> Option<real>)
    ensures var payload: Record := map["owned_spawns" := Num(1.0), "owned_creeps" := Num(1.0)];
      Recovered(payload, t, num) && !SeenPopulated(payload, t, num)
  {
    var payload: Record := map["owned_spawns" := Num(1.0), "owned_creeps" := Num(1.0)];
    CountsStandForOneRoom(payload);
    LoneRoomDecides(payload, t, num, Obj(payload));
    assert FirstNumber(payload, SPAWN_KEYS, num) == Some(1.0) && FirstNumber(payload, CREEP_KEYS, num) == Some(1.0);
    RecoveryIsEvidence(payload, t, num);
  }

  lemma CountsStandForOneRoom(payload: Record)
    requires "owned_spawns" in payload && "rooms" !in payload && "room_summaries" !in payload
    ensures RecoveryCandidates(payload) == [Obj(payload)]
  {
  }

  /** One populated room, whichever it is, proves recovery of every list of targets. */
  lemma OneRoomRecoversAll(payload: Record, targets: seq<RoomTarget>, num: string -> Option<real>, room: Json)
    requires RecoveryCandidates(payload) == [room] && room.Obj? && IsPopulated(room.fields, num) && targets != []
    ensures AllRecovered(payload, targets, num)
  {
    forall t | t in targets ensures Recovered(payload, t, num) {
      if RoomPayloadMatches(room.fields, t) {
        FirstMatchDecides(payload, t, num, 0);
      } else {
        LoneRoomDecides(payload, t, num, room);
      }
    }
  }

  ghost predicate AllRecovered(payload: Record, targets: seq<RoomTarget>, num: string -> Option<real>) {
    targets != [] && forall t :: t in targets ==> Recovered(payload, t, num)
  }

  lemma RecoveredByIndex(payload: Record, targets: seq<RoomTarget>, num: string -> Option<real>)
    ensures AllRecovered(payload, targets, num) <==>
              targets != [] && forall i :: 0 <= i < |targets| ==> Recovered(payload, targets[i], num)
  {
    if forall i :: 0 <= i < |targets| ==> Recovered(payload, targets[i], num) {
      forall t | t in targets ensures Recovered(payload, t, num) {
        var i :| 0 <= i < |targets| && targets[i] == t;
      }
    }
  }

  /** The combined status: one target is looked up alone, several all have to have recovered. */
  method RecoveryStatusFromTargets(payload: Record, targets: seq<RoomTarget>, num: string -> Option<real>)
    returns (ok: bool, rooms: seq<Status>)
    ensures ok <==> AllRecovered(payload, targets, num)
    ensures |rooms| == |targets| && forall i :: 0 <= i < |targets| ==>
              rooms[i] == RecoveryStatus(payload, targets[i], num)
  {
    RecoveredByIndex(payload, targets, num);
    hide RecoveryStatus, IsRecovered, AllRecovered;
    if |targets| == 1 {
      var status := RecoveryStatus(payload, targets[0], num);
      ok, rooms := IsRecovered(status), [status];
      assert ok <==> Recovered(payload, targets[0], num);
      return;
    }
    rooms := [];
    var all := true;
    for i := 0 to |targets|
      invariant |rooms| == i && forall j :: 0 <= j < i ==> rooms[j] == RecoveryStatus(payload, targets[j], num)
      invariant all <==> forall j :: 0 <= j < i ==> Recovered(payload, targets[j], num)
    {
      var status := RecoveryStatus(payload, targets[i], num);
      rooms := rooms + [status];
      all := all && IsRecovered(status);
      assert IsRecovered(status) <==> Recovered(payload, targets[i], num);
    }
    ok := rooms != [] && all;
  }

  // ---------- the polling loop ----------

  /** The clock and the monitor. Time never runs backwards, a sleep lasts at least as long as requested,
      and a reading may fail. */
  class Monitor {
    var now: real
    var readings: seq<Record>

    method Monotonic() returns (t: real)
      modifies `now
      ensures old(now) <= now == t
    {
      var passed: real := *;
      if passed > 0.0 {
        now := now + passed;
      }
      t := now;
    }

    method Sleep(seconds: real)
      modifies `now
      ensures now >= old(now) + seconds && now >= old(now)
    {
      var passed: real := *;
      if passed >= seconds && passed >= 0.0 {
        now := now + passed;
      } else if seconds > 0.0 {
        now := now + seconds;
      }
    }

    method Read() returns (r: Result<Record, string>)
      modifies this
      ensures now >= old(now)
      ensures r.Ok? ==> readings == old(readings) + [r.value]
      ensures r.Err? ==> readings == old(readings)
    {
      r := *;
      var passed: real := *;
      if passed > 0.0 {
        now := now + passed;
      }
      if r.Ok? {
        readings := readings + [r.value];
      }
    }
  }

  /** The quotient rounded up; nothing for a timeout that is not positive. */
  function CeilDiv(timeout: int, poll: int): (q: int)
    requires poll > 0
    ensures q >= 0 && q * poll >= timeout && (timeout > 0 ==> (q - 1) * poll < timeout)
  {
    if timeout <= 0 then 0 else (timeout + poll - 1) / poll
  }

  /** One more sleep of `poll` seconds before a timeout that has not come yet. */
  lemma SleepsFit(n: nat, timeout: int, poll: int, now: real, start: real)
    requires poll > 0 && start + (n * poll) as real <= now < start + timeout as real
    ensures n < CeilDiv(timeout, poll)
  {
    assert n * poll < timeout;
    Monotone(CeilDiv(timeout, poll), n, poll);
  }

  lemma Monotone(a: int, b: int, c: int)
    requires c > 0
    ensures a <= b ==> a * c <= b * c
  {
  }

  method WaitForRecoveryTargets(m: Monitor, targets: seq<RoomTarget>, num: string -> Option<real>, timeout: int,
                                poll: int)
    returns (r: Result<bool, string>)
    requires poll > 0
    modifies m
    ensures old(m.readings) <= m.readings && m.now >= old(m.now)
    // the number of readings is bounded
    ensures |m.readings| - |old(m.readings)| <= CeilDiv(timeout, poll) + 1
    // success exactly if the last reading recovered every target; no earlier one did
    ensures r.Ok? ==> |m.readings| > |old(m.readings)|
    ensures r.Ok? ==> (r.value <==> AllRecovered(m.readings[|m.readings| - 1], targets, num))
    ensures forall i :: |old(m.readings)| <= i < |m.readings| && !(r.Ok? && i == |m.readings| - 1) ==>
              !AllRecovered(m.readings[i], targets, num)
    // giving up only once the deadline has passed
    ensures r == Ok(false) ==> m.now >= old(m.now) + timeout as real
  {
    var start := m.Monotonic();
    var deadline := start + timeout as real;
    var attempts: nat := 0;
    ghost var before := m.readings;
    while true
      invariant before <= m.readings && |m.readings| == |before| + attempts
      invariant m.now >= start && start >= old(m.now)
      invariant m.now >= start + (attempts * poll) as real || m.now >= deadline
      invariant attempts <= CeilDiv(timeout, poll)
      invariant forall i :: |before| <= i < |m.readings| ==> !AllRecovered(m.readings[i], targets, num)
      decreases CeilDiv(timeout, poll) - attempts
    {
      var reading := m.Read();
      if reading.Err? {
        return Err(reading.error);
      }
      attempts := attempts + 1;
      var ok, _ := RecoveryStatusFromTargets(reading.value, targets, num);
      if ok {
        return Ok(true);
      }
      var t := m.Monotonic();
      var remaining := deadline - t;
      if remaining <= 0.0 {
        return Ok(false);
      }
      SleepsFit(attempts - 1, timeout, poll, t, start);
      m.Sleep(if poll as real <= remaining then poll as real else remaining);
      OneSleepMore(attempts, poll);
    }
  }

  lemma OneSleepMore(attempts: nat, poll: int)
    requires attempts > 0
    ensures ((attempts - 1) * poll) as real + poll as real == (attempts * poll) as real
  {
  }
}
