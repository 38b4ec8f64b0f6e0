/** Health gates and monitor readings in the words of their payloads: which reasons trigger a rollback, which rooms
    have to recover, and which readings prove it. */
module RollbackReading {
  import opened Basics
  import opened JsonValues
  import opened RollbackTriggers
  import opened RollbackRecovery

  // ---------- levels of a reason ----------

  /** The n-th level of a reason, counted from the outside, has this kind, and this room unless a level between
      names another one. */
  ghost predicate IsLevel(reason: Json, around: Json, n: nat, kind: Json, room: Json)
    decreases n
  {
    && reason.Obj?
    && var here := if "room" in reason.fields then reason.fields["room"] else around;
       if n == 0 then kind == (if "kind" in reason.fields then reason.fields["kind"] else Null) && room == here
       else "source" in reason.fields && IsLevel(reason.fields["source"], here, n - 1, kind, room)
  }

  lemma {:induction false} LevelReads(reason: Json, around: Json, n: nat, kind: Json, room: Json)
    ensures n < |Chain(reason, around)| && Chain(reason, around)[n] == Link(kind, room)
            <==> IsLevel(reason, around, n, kind, room)
    decreases n
  {
    if reason.Obj? && n > 0 && "source" in reason.fields {
      var here := if "room" in reason.fields then reason.fields["room"] else around;
      LevelReads(reason.fields["source"], here, n - 1, kind, room);
      assert Chain(reason, around)[1..] == Chain(reason.fields["source"], here);
    }
  }

  /** The kinds that call for a rollback. */
  predicate CallsForRollback(kind: Json) {
    || kind == Str("room_dead") || kind == Str("postdeploy_room_dead")
    || kind == Str("no_owned_spawn") || kind == Str("postdeploy_no_owned_spawn")
  }

  lemma KindReads(kind: Json)
    ensures IsTrigger(kind) <==> CallsForRollback(kind)
  {
    var kinds := TRIGGER_KINDS;
    assert kinds[0] == "room_dead" && kinds[1] == "postdeploy_room_dead" && kinds[2] == "no_owned_spawn"
        && kinds[3] == "postdeploy_no_owned_spawn" && |kinds| == 4;
  }

  lemma LinkReads(reason: Json, kind: Json, room: Json)
    ensures Link(kind, room) in Chain(reason, Null) <==> exists n: nat :: IsLevel(reason, Null, n, kind, room)
  {
    var chain := Chain(reason, Null);
    if Link(kind, room) in chain {
      var n: nat :| n < |chain| && chain[n] == Link(kind, room);
      LevelReads(reason, Null, n, kind, room);
    }
    if n: nat :| IsLevel(reason, Null, n, kind, room) {
      LevelIsLink(reason, n, kind, room);
    }
  }

  lemma LevelIsLink(reason: Json, n: nat, kind: Json, room: Json)
    requires IsLevel(reason, Null, n, kind, room)
    ensures Link(kind, room) in Chain(reason, Null)
  {
    LevelReads(reason, Null, n, kind, room);
    assert Chain(reason, Null)[n] in Chain(reason, Null);
  }

  /** Some level of the reason calls for a rollback and gives this as its room. */
  ghost predicate Complains(reason: Json, room: Json) {
    exists n: nat, kind :: IsLevel(reason, Null, n, kind, room) && CallsForRollback(kind)
  }

  lemma ComplainsReads(reason: Json, room: Json)
    ensures Complains(reason, room) <==>
      exists link :: link in Chain(reason, Null) && IsTrigger(link.kind) && link.room == room
  {
    hide Chain, CallsForRollback, IsTrigger;
    if link :| link in Chain(reason, Null) && IsTrigger(link.kind) && link.room == room {
      assert link == Link(link.kind, room);
      LinkReads(reason, link.kind, room);
      KindReads(link.kind);
      var n: nat :| IsLevel(reason, Null, n, link.kind, room);
      assert Complains(reason, room);
    }
    if n: nat, kind :| IsLevel(reason, Null, n, kind, room) && CallsForRollback(kind) {
      KindReads(kind);
      LevelIsLink(reason, n, kind, room);
      assert Link(kind, room) in Chain(reason, Null) && Link(kind, room).room == room;
    }
  }

  lemma TriggerReads(reason: Json)
    ensures ReasonTriggers(reason) <==> exists room :: Complains(reason, room)
  {
    TriggersByChain(reason, Null);
    hide Chain, ReasonTriggers, Complains;
    if link :| link in Chain(reason, Null) && IsTrigger(link.kind) {
      ComplainsReads(reason, link.room);
    }
    if room :| Complains(reason, room) {
      ComplainsReads(reason, room);
    }
  }

  predicate IsReason(gate: Json, reason: Json) {
    gate.Obj? && "reasons" in gate.fields && gate.fields["reasons"].Arr? && reason in gate.fields["reasons"].items
  }

  /** A gate triggers a rollback exactly if it failed outright and some level of one of its reasons calls for it. */
  lemma GateReads(gate: Json)
    ensures HealthGateTriggers(gate) <==>
      && gate.Obj? && "ok" in gate.fields && gate.fields["ok"] == Bool(false)
      && exists reason, room :: IsReason(gate, reason) && Complains(reason, room)
  {
    hide ReasonTriggers, Complains;
    forall reason ensures reason in Reasons(gate) <==> IsReason(gate, reason) {}
    forall reason ensures ReasonTriggers(reason) <==> exists room :: Complains(reason, room) {
      TriggerReads(reason);
    }
  }

  // ---------- rooms ----------

  predicate AreDigits(s: string) {
    s != "" && forall c :: c in s ==> '0' <= c <= '9'
  }

  /** A room name: west or east, a number, north or south, a number. */
  ghost predicate IsRoomName(s: string) {
    exists x, a, y, b :: IsRoomNameOf(s, x, a, y, b)
  }

  predicate IsRoomNameOf(s: string, x: char, a: string, y: char, b: string) {
    s == [x] + a + [y] + b && (x == 'W' || x == 'E') && (y == 'N' || y == 'S') && AreDigits(a) && AreDigits(b)
  }

  lemma DigitsAre(s: string, i: nat, j: nat)
    requires i < j <= |s| && forall k :: i <= k < j ==> IsDigit(s[k])
    ensures AreDigits(s[i..j])
  {
    forall c | c in s[i..j] ensures '0' <= c <= '9' {
      var k :| 0 <= k < j - i && s[i..j][k] == c;
      assert IsDigit(s[i + k]);
    }
  }

  lemma RoomAtReads(s: string, k: nat)
    requires k < |s| && IsRoomAt(s, k)
    ensures IsRoomName(s)
  {
    DigitsAre(s, 1, k);
    DigitsAre(s, k + 1, |s|);
    var a, b := s[1..k], s[k + 1..];
    assert s == [s[0]] + a + [s[k]] + b;
    assert s[k + 1..|s|] == b;
    hide AreDigits;
    assert IsRoomNameOf(s, s[0], a, s[k], b);
  }

  lemma NameIsRoom(s: string, x: char, a: string, y: char, b: string)
    requires IsRoomNameOf(s, x, a, y, b)
    ensures IsRoom(s)
  {
    var k := |a| + 1;
    assert s[0] == x && s[k] == y;
    forall i | 0 < i < |s| && i != k ensures IsDigit(s[i]) {
      var c := if i < k then a[i - 1] else b[i - k - 1];
      assert s[i] == c;
      assert c in if i < k then a else b;
    }
    assert IsRoomAt(s, k);
  }

  lemma NameReads(s: string)
    ensures IsRoom(s) <==> IsRoomName(s)
  {
    hide IsRoomAt, IsRoomNameOf;
    if k: nat :| k < |s| && IsRoomAt(s, k) {
      RoomAtReads(s, k);
    }
    if x, a, y, b :| IsRoomNameOf(s, x, a, y, b) {
      NameIsRoom(s, x, a, y, b);
    }
  }

  /** A shard name: letters, digits, dashes and underscores. */
  lemma ShardReads(s: string)
    ensures IsShard(s) <==> s != "" && forall c :: c in s ==>
      'a' <= c <= 'z' || 'A' <= c <= 'Z' || '0' <= c <= '9' || c == '-' || c == '_'
  {
  }

  /** A level names a room that can be read, in the configured shard unless it says another. */
  ghost predicate Points(room: Json, shard: string, t: RoomTarget) {
    room.Str? && RoomTargetFromValue(room, shard) == Some(t)
  }

  /** Some reason complains about this room. */
  ghost predicate IsNamed(gate: Json, shard: string, t: RoomTarget) {
    exists reason, room :: IsReason(gate, reason) && Complains(reason, room) && Points(room, shard, t)
  }

  /** Some reason complains without naming a room that can be read. */
  ghost predicate ComplainsAtLarge(gate: Json, shard: string) {
    exists reason :: IsReason(gate, reason) && LeavesRoomOpen(reason, shard)
  }

  ghost predicate LeavesRoomOpen(reason: Json, shard: string) {
    && (exists room :: Complains(reason, room))
    && forall room, t :: Complains(reason, room) ==> !Points(room, shard, t)
  }

  lemma ParsedReads(reason: Json, shard: string, t: RoomTarget)
    ensures t in RoomTargetsFromReason(reason, shard, Null) <==>
      exists room :: Complains(reason, room) && Points(room, shard, t)
  {
    TargetsByChain(reason, shard, Null, t);
    hide Chain, RoomTargetsFromReason, Complains, IsTrigger;
    if link :| link in Chain(reason, Null) && t in TargetOf(link, shard) {
      ComplainsReads(reason, link.room);
      assert Complains(reason, link.room) && Points(link.room, shard, t);
    }
    if room :| Complains(reason, room) && Points(room, shard, t) {
      ComplainsReads(reason, room);
      var link :| link in Chain(reason, Null) && IsTrigger(link.kind) && link.room == room;
      assert t in TargetOf(link, shard);
    }
  }

  lemma ContributionReads(reason: Json, home: RoomTarget, t: RoomTarget)
    ensures t in Contribution(reason, home) <==>
      || (exists room :: Complains(reason, room) && Points(room, home.shard, t))
      || (t == home && LeavesRoomOpen(reason, home.shard))
  {
    var parsed := RoomTargetsFromReason(reason, home.shard, Null);
    forall u ensures u in parsed <==> exists room :: Complains(reason, room) && Points(room, home.shard, u) {
      ParsedReads(reason, home.shard, u);
    }
    TriggerReads(reason);
    hide RoomTargetsFromReason, ReasonTriggers, Complains, Points;
    if parsed != [] {
      assert parsed[0] in parsed;
      var room :| Complains(reason, room) && Points(room, home.shard, parsed[0]);
      assert t in parsed <==> exists r :: Complains(reason, r) && Points(r, home.shard, t);
    } else {
      forall room, u | Complains(reason, room) ensures !Points(room, home.shard, u) {
        assert u !in parsed;
      }
    }
  }

  /** A room has to recover exactly if a reason complains about it; or if it is the configured one and some reason
      complains without naming a room, or none complains at all. */
  lemma TargetsExactly(gate: Json, home: RoomTarget, targets: seq<RoomTarget>, t: RoomTarget)
    requires AreRecoveryTargets(gate, home, targets)
    ensures t in targets <==>
      || IsNamed(gate, home.shard, t)
      || (t == home && ComplainsAtLarge(gate, home.shard))
      || (t == home && !exists reason, room :: IsReason(gate, reason) && Complains(reason, room))
  {
    forall reason, u ensures u in Contribution(reason, home) <==>
      || (exists room :: Complains(reason, room) && Points(room, home.shard, u))
      || (u == home && LeavesRoomOpen(reason, home.shard))
    {
      ContributionReads(reason, home, u);
    }
    forall reason ensures reason in Reasons(gate) <==> IsReason(gate, reason) {}
    forall reason ensures Contribution(reason, home) != [] <==> exists room :: Complains(reason, room) {
      SomethingContributed(reason, home);
    }
    hide Contribution, Reasons, IsReason, Complains, Points;
  }

  lemma SomethingContributed(reason: Json, home: RoomTarget)
    ensures Contribution(reason, home) != [] <==> exists room :: Complains(reason, room)
  {
    var own := Contribution(reason, home);
    if own != [] {
      ContributionReads(reason, home, own[0]);
      assert own[0] in own;
    }
    hide Contribution, Complains, Points;
    if room :| Complains(reason, room) {
      if t :| Points(room, home.shard, t) {
        ContributionReads(reason, home, t);
      } else if other, t :| Complains(reason, other) && Points(other, home.shard, t) {
        ContributionReads(reason, home, t);
      } else {
        ContributionReads(reason, home, home);
      }
    }
  }

  // ---------- readings ----------

  function NumberOf(v: Json, num: string -> Option<real>): Option<real> {
    match v
    case Num(n) => Some(n)
    case Str(s) => num(s)
    case _ => None
  }

  /** The first of these fields that holds a number holds this one. */
  ghost predicate FirstNumberIs(payload: Record, keys: seq<string>, num: string -> Option<real>, x: real) {
    exists i: nat :: NumberAt(payload, keys, num, x, i)
  }

  ghost predicate NumberAt(payload: Record, keys: seq<string>, num: string -> Option<real>, x: real, i: nat) {
    && i < |keys| && keys[i] in payload && NumberOf(payload[keys[i]], num) == Some(x)
    && forall j :: 0 <= j < i && keys[j] in payload ==> NumberOf(payload[keys[j]], num).None?
  }

  lemma NumberLater(payload: Record, keys: seq<string>, num: string -> Option<real>, x: real, i: nat)
    requires keys != [] && (keys[0] in payload ==> NumberOf(payload[keys[0]], num).None?)
    ensures NumberAt(payload, keys[1..], num, x, i) <==> NumberAt(payload, keys, num, x, i + 1)
  {
    var rest := keys[1..];
    assert forall j :: 0 <= j < |rest| ==> rest[j] == keys[j + 1];
    assert forall j :: 0 < j < |keys| ==> keys[j] == rest[j - 1];
  }

  lemma {:induction false} NumberReads(payload: Record, keys: seq<string>, num: string -> Option<real>, x: real)
    ensures FirstNumber(payload, keys, num) == Some(x) <==> FirstNumberIs(payload, keys, num, x)
  {
    if keys == [] {
    } else if NumberOrNone(Get(payload, keys[0]), num).Some? {
      assert FirstNumber(payload, keys, num) == Some(x) ==> NumberAt(payload, keys, num, x, 0);
    } else {
      NumberReads(payload, keys[1..], num, x);
      forall i: nat ensures NumberAt(payload, keys[1..], num, x, i) <==> NumberAt(payload, keys, num, x, i + 1) {
        NumberLater(payload, keys, num, x, i);
      }
      if i: nat :| NumberAt(payload, keys, num, x, i) {
        assert i > 0;
        assert NumberAt(payload, keys[1..], num, x, i - 1);
      }
    }
  }

  const SPAWNS: seq<string> := ["owned_spawns", "ownedSpawnCount", "spawns", "spawnCount"]
  const CREEPS: seq<string> := ["owned_creeps", "ownedCreeps", "ownedCreepCount", "creeps", "creepCount"]

  /** A room has at least one spawn and at least one creep, wherever its numbers are filed. */
  ghost predicate HasSpawnAndCreep(room: Record, num: string -> Option<real>) {
    && (exists x :: x >= 1.0 && FirstNumberIs(room, SPAWNS, num, x))
    && (exists x :: x >= 1.0 && FirstNumberIs(room, CREEPS, num, x))
  }

  lemma AtLeastOneReads(room: Record, keys: seq<string>, num: string -> Option<real>)
    ensures AtLeastOne(FirstNumber(room, keys, num)) <==> exists x :: x >= 1.0 && FirstNumberIs(room, keys, num, x)
  {
    forall x ensures FirstNumber(room, keys, num) == Some(x) <==> FirstNumberIs(room, keys, num, x) {
      NumberReads(room, keys, num, x);
    }
    hide FirstNumber, FirstNumberIs;
  }

  lemma PopulatedReads(room: Record, num: string -> Option<real>)
    ensures IsPopulated(room, num) <==> HasSpawnAndCreep(room, num)
  {
    AtLeastOneReads(room, SPAWN_KEYS, num);
    AtLeastOneReads(room, CREEP_KEYS, num);
    hide FirstNumber, FirstNumberIs;
  }

  /** A listed room is the target by its full name or its room name, or by its name if its shard is right or
      missing. */
  predicate IsTheRoom(room: Record, t: RoomTarget) {
    var full, name := Str(t.shard + "/" + t.room), Str(t.room);
    || ("room" in room && (room["room"] == full || room["room"] == name))
    || ("key" in room && (room["key"] == full || room["key"] == name))
    || ((if "name" in room then room["name"] == name else "roomName" in room && room["roomName"] == name)
        && ("shard" !in room || room["shard"] == Null || room["shard"] == Str(t.shard)))
  }

  lemma MatchReads(room: Record, t: RoomTarget)
    ensures RoomPayloadMatches(room, t) <==> IsTheRoom(room, t)
  {
  }

  /** The objects of a list, in order. */
  ghost predicate AreObjects(v: Json, rooms: seq<Json>) {
    v.Arr? && IsSublist(v.items, IsAnObject(), rooms)
  }

  function IsAnObject(): Json -> bool {
    (v: Json) => v.Obj?
  }

  ghost predicate HasObjects(payload: Record, key: string) {
    key in payload && payload[key].Arr? && exists v :: v in payload[key].items && v.Obj?
  }

  /** The rooms of a reading: those under "room_summaries", or else those under "rooms", or else the reading itself
      if it carries counts. */
  ghost predicate AreRooms(payload: Record, rooms: seq<Json>) {
    if HasObjects(payload, "room_summaries") then AreObjects(payload["room_summaries"], rooms)
    else if HasObjects(payload, "rooms") then AreObjects(payload["rooms"], rooms)
    else if "owned_spawns" in payload || "owned_creeps" in payload || "spawns" in payload || "creeps" in payload
    then rooms == [Obj(payload)]
    else rooms == []
  }

  lemma RoomsUnderRead(payload: Record, key: string)
    ensures RoomsUnder(payload, key) != [] <==> HasObjects(payload, key)
    ensures HasObjects(payload, key) ==> AreObjects(payload[key], RoomsUnder(payload, key))
  {
    if key in payload && payload[key].Arr? {
      var items := payload[key].items;
      FilterMembers(items, IsObject());
      SublistAlso(items, IsObject(), IsAnObject());
      var own := Filter(items, IsObject());
      if own != [] {
        assert own[0] in own;
      }
    }
  }

  lemma RoomsRead(payload: Record)
    ensures AreRooms(payload, RecoveryCandidates(payload))
  {
    RoomsUnderRead(payload, "room_summaries");
    RoomsUnderRead(payload, "rooms");
    hide RoomsUnder, HasObjects, AreObjects;
  }

  /** Which room of a reading speaks for the target: the first listed as it, or the only one listed. */
  ghost predicate SpeaksFor(rooms: seq<Json>, t: RoomTarget, i: nat) {
    && i < |rooms| && rooms[i].Obj?
    && (|rooms| > 1 ==>
          && IsTheRoom(rooms[i].fields, t)
          && forall j :: 0 <= j < i && rooms[j].Obj? ==> !IsTheRoom(rooms[j].fields, t))
  }

  lemma SpeakerDecides(payload: Record, t: RoomTarget, num: string -> Option<real>, i: nat)
    requires SpeaksFor(RecoveryCandidates(payload), t, i)
    ensures Recovered(payload, t, num) <==> HasSpawnAndCreep(RecoveryCandidates(payload)[i].fields, num)
  {
    var rooms := RecoveryCandidates(payload);
    PopulatedReads(rooms[i].fields, num);
    forall j | 0 <= j < |rooms| ensures RoomPayloadMatches(rooms[j].fields, t) <==> IsTheRoom(rooms[j].fields, t) {
      MatchReads(rooms[j].fields, t);
    }
    hide RecoveryCandidates, RoomPayloadMatches, IsTheRoom, IsPopulated, HasSpawnAndCreep, Recovered;
    if RoomPayloadMatches(rooms[i].fields, t) {
      FirstMatchDecides(payload, t, num, i);
    } else {
      assert rooms == [rooms[i]];
      LoneRoomDecides(payload, t, num, rooms[i]);
    }
  }

  lemma NoSpeaker(payload: Record, t: RoomTarget, num: string -> Option<real>)
    requires forall i: nat :: !SpeaksFor(RecoveryCandidates(payload), t, i)
    ensures !Recovered(payload, t, num)
  {
    var rooms := RecoveryCandidates(payload);
    assert !SpeaksFor(rooms, t, 0);
    forall j: nat | j < |rooms| ensures !RoomPayloadMatches(rooms[j].fields, t) {
      MatchReads(rooms[j].fields, t);
      NoMatch(rooms, t, j);
    }
    hide RecoveryCandidates, RoomPayloadMatches, Recovered, SpeaksFor;
    forall room | room in rooms ensures !RoomPayloadMatches(room.fields, t) {
      var j :| 0 <= j < |rooms| && rooms[j] == room;
    }
    NobodyDecides(payload, t, num);
  }

  lemma {:induction false} NoMatch(rooms: seq<Json>, t: RoomTarget, j: nat)
    requires j < |rooms| && rooms[j].Obj? && forall i: nat :: !SpeaksFor(rooms, t, i)
    ensures !IsTheRoom(rooms[j].fields, t)
    decreases j
  {
    forall i: nat | i < j && rooms[i].Obj? ensures !IsTheRoom(rooms[i].fields, t) {
      NoMatch(rooms, t, i);
    }
    assert !SpeaksFor(rooms, t, j);
  }

  /** A target counts as recovered exactly if the room that speaks for it has a spawn and a creep. */
  lemma RecoveryReads(payload: Record, t: RoomTarget, num: string -> Option<real>) returns (rooms: seq<Json>)
    ensures AreRooms(payload, rooms)
    ensures Recovered(payload, t, num) <==>
      exists i: nat :: SpeaksFor(rooms, t, i) && HasSpawnAndCreep(rooms[i].fields, num)
  {
    rooms := RecoveryCandidates(payload);
    RoomsRead(payload);
    forall i: nat | SpeaksFor(rooms, t, i)
      ensures Recovered(payload, t, num) <==> HasSpawnAndCreep(rooms[i].fields, num)
    {
      SpeakerDecides(payload, t, num, i);
    }
    if forall i: nat :: !SpeaksFor(rooms, t, i) {
      NoSpeaker(payload, t, num);
    }
    hide RecoveryCandidates, Recovered, HasSpawnAndCreep, AreRooms;
  }
}
