/** Which failed health gates authorize a rollback, and which rooms then have to recover. */
module RollbackTriggers {
  import opened Basics
  import opened JsonValues

  const TRIGGER_KINDS: seq<string> := 
    ["room_dead", "postdeploy_room_dead", "no_owned_spawn", "postdeploy_no_owned_spawn"]

  predicate IsTrigger(kind: Json) {
    kind.Str? && kind.s in TRIGGER_KINDS
  }

  // ---------- reason trees ----------

  /** A reason names a kind and may wrap the reason it came from. */
  predicate ReasonTriggers(reason: Json) {
    && reason.Obj?
    && (IsTrigger(Field(reason, "kind")) || ("source" in reason.fields && ReasonTriggers(reason.fields["source"])))
  }

  function Reasons(gate: Json): seq<Json> {
    if Field(gate, "reasons").Arr? then Field(gate, "reasons").items else []
  }

  predicate HealthGateTriggers(gate: Json) {
    Field(gate, "ok") == Bool(false) && exists reason :: reason in Reasons(gate) && ReasonTriggers(reason)
  }

  /** One level of a reason tree, with the room that level speaks about. */
  datatype Link = Link(kind: Json, room: Json)

  /** All levels, outermost first; a level without a room inherits the one around it. */
  function Chain(reason: Json, inherited: Json): seq<Link> {
    if !reason.Obj? then [] else
    var room := if "room" in reason.fields then reason.fields["room"] else inherited;
    [Link(Field(reason, "kind"), room)] + if "source" in reason.fields then Chain(reason.fields["source"], room) else []
  }

  /** Some level of the reason has the given kind. */
  ghost predicate HasKind(reason: Json, kind: Json) {
    exists link :: link in Chain(reason, Null) && link.kind == kind
  }

  lemma {:induction false} TriggersByChain(reason: Json, inherited: Json)
    ensures ReasonTriggers(reason) <==> exists link :: link in Chain(reason, inherited) && IsTrigger(link.kind)
  {
    if !reason.Obj? {
    } else {
      var chain := Chain(reason, inherited);
      assert chain[0] in chain;
      if "source" in reason.fields {
        TriggersByChain(reason.fields["source"], chain[0].room);
        assert forall link :: link in chain[1..] ==> link in chain;
      }
    }
  }

  // ---------- collecting the kinds ----------

  /** The matched kinds: sorted, without repetition, and exactly those found at some level of some reason. */
  ghost predicate AreKinds(reasons: seq<Json>, kinds: seq<string>) {
    && SortedBy(kinds, TextLeq) && Distinct(kinds)
    && forall k :: k in kinds <==> k in TRIGGER_KINDS && exists reason :: reason in reasons && HasKind(reason, Str(k))
  }

  /** The kinds collected so far are the matched ones among `links`. */
  ghost predicate Collects(kinds: seq<string>, links: seq<Link>) {
    forall k :: k in kinds <==> k in TRIGGER_KINDS && exists link :: link in links && link.kind == Str(k)
  }

  function Collect(kinds: seq<string>, kind: Json): seq<string> {
    if IsTrigger(kind) then kinds + [kind.s] else kinds
  }

  lemma CollectOne(kinds: seq<string>, links: seq<Link>, link: Link)
    requires Collects(kinds, links)
    ensures Collects(Collect(kinds, link.kind), links + [link])
  {
    var more := Collect(kinds, link.kind);
    forall k ensures k in more <==> k in TRIGGER_KINDS && exists l :: l in links + [link] && l.kind == Str(k) {
      if k in TRIGGER_KINDS && exists l :: l in links + [link] && l.kind == Str(k) {
        var l :| l in links + [link] && l.kind == Str(k);
        assert l in links || l == link;
      }
      if k in kinds {
        var l :| l in links && l.kind == Str(k);
        assert l in links + [link];
      }
      assert link in links + [link];
    }
  }

  lemma ChainStep(item: Json, room: Json) returns (link: Link)
    requires item.Obj?
    ensures link.kind == Field(item, "kind")
    ensures Chain(item, room)
         == [link] + if Field(item, "source").Obj? then Chain(Field(item, "source"), link.room) else []
    ensures Field(item, "source").Obj? ==> (item decreases to Field(item, "source"))
  {
    link := Chain(item, room)[0];
  }

  /** The walk through one reason with an explicit stack. */
  method WalkReason(reason: Json, before: seq<string>, ghost links: seq<Link>) returns (kinds: seq<string>)
    requires reason.Obj? && Collects(before, links)
    ensures Collects(kinds, links + Chain(reason, Null))
  {
    hide Collects, Collect, Chain;
    kinds := before;
    var stack := [reason];
    ghost var seen: seq<Link>, room := links, Null;
    while stack != []
      invariant |stack| <= 1 && (stack != [] ==> stack[0].Obj?)
      invariant links + Chain(reason, Null) == seen + if stack == [] then [] else Chain(stack[0], room)
      invariant Collects(kinds, seen)
      decreases |stack|, if stack == [] then Null else stack[0]
    {
      var item := stack[|stack| - 1];
      stack := stack[..|stack| - 1];
      ghost var link := ChainStep(item, room);
      CollectOne(kinds, seen, link);
      kinds := Collect(kinds, Field(item, "kind"));
      var source := Field(item, "source");
      if source.Obj? {
        stack := stack + [source];
      }
      seen, room := seen + [link], link.room;
    }
    assert seen + [] == seen;
  }

  ghost function Links(reasons: seq<Json>): seq<Link> {
    if reasons == [] then [] else Links(reasons[..|reasons| - 1]) + Chain(reasons[|reasons| - 1], Null)
  }

  lemma {:induction false} LinksMember(reasons: seq<Json>, link: Link)
    ensures link in Links(reasons) <==> exists reason :: reason in reasons && link in Chain(reason, Null)
  {
    if reasons == [] {
    } else {
      var n := |reasons| - 1;
      LinksMember(reasons[..n], link);
      if exists reason :: reason in reasons && link in Chain(reason, Null) {
        var reason :| reason in reasons && link in Chain(reason, Null);
        assert reason in reasons[..n] || reason == reasons[n];
      }
      assert reasons[n] in reasons && forall reason :: reason in reasons[..n] ==> reason in reasons;
    }
  }

  method TriggerReasonKinds(gate: Json) returns (kinds: seq<string>)
    ensures AreKinds(Reasons(gate), kinds)
  {
    var reasons, found := Reasons(gate), [];
    for i := 0 to |reasons|
      invariant Collects(found, Links(reasons[..i]))
    {
      assert reasons[..i + 1][..i] == reasons[..i];
      if reasons[i].Obj? {
        found := WalkReason(reasons[i], found, Links(reasons[..i]));
      } else {
        assert Links(reasons[..i + 1]) == Links(reasons[..i]);
      }
    }
    assert reasons[..|reasons|] == reasons;
    kinds := StableSort(Dedup(found), TextLeq);
    TextLeqOrder();
    SortSorted(Dedup(found), TextLeq);
    SortPermutes(Dedup(found), TextLeq);
    SameMembers(Dedup(found), kinds);
    DistinctPermutation(Dedup(found), kinds);
    CollectedKinds(reasons, found, kinds);
  }

  lemma CollectedKinds(reasons: seq<Json>, found: seq<string>, kinds: seq<string>)
    requires Collects(found, Links(reasons)) && forall k :: k in kinds <==> k in found
    ensures forall k :: k in kinds <==>
              k in TRIGGER_KINDS && exists reason :: reason in reasons && HasKind(reason, Str(k))
  {
    forall k
      ensures k in kinds <==> k in TRIGGER_KINDS && exists reason :: reason in reasons && HasKind(reason, Str(k))
    {
      assert k in kinds <==> k in found;
      if k in found {
        var link :| link in Links(reasons) && link.kind == Str(k);
        LinksMember(reasons, link);
        var reason :| reason in reasons && link in Chain(reason, Null);
        assert HasKind(reason, Str(k));
      }
      if k in TRIGGER_KINDS && exists reason :: reason in reasons && HasKind(reason, Str(k)) {
        var reason :| reason in reasons && HasKind(reason, Str(k));
        var link :| link in Chain(reason, Null) && link.kind == Str(k);
        LinksMember(reasons, link);
      }
    }
  }

  /** The recursive trigger agrees with the collector: a failed gate triggers a rollback exactly if some
      kind was collected. */
  lemma TriggersIffKinds(gate: Json, kinds: seq<string>)
    requires AreKinds(Reasons(gate), kinds)
    ensures HealthGateTriggers(gate) <==> Field(gate, "ok") == Bool(false) && kinds != []
  {
    forall reason ensures ReasonTriggers(reason) <==> exists k :: k in TRIGGER_KINDS && HasKind(reason, Str(k)) {
      TriggersByChain(reason, Null);
      if ReasonTriggers(reason) {
        var link :| link in Chain(reason, Null) && IsTrigger(link.kind);
        assert HasKind(reason, Str(link.kind.s));
      }
    }
    if kinds != [] {
      assert kinds[0] in kinds;
    }
  }

  // ---------- room targets ----------

  datatype RoomTarget = RoomTarget(shard: string, room: string)

  predicate IsDigit(c: char) {
    '0' <= c <= '9'
  }

  predicate IsShardChar(c: char) {
    IsDigit(c) || 'a' <= c <= 'z' || 'A' <= c <= 'Z' || c == '_' || c == '-'
  }

  predicate IsShard(s: string) {
    s != "" && forall c :: c in s ==> IsShardChar(c)
  }

  /** A cross-axis letter at position k of a room name, with digits on both sides. */
  predicate IsRoomAt(s: string, k: nat) {
    && 2 <= k < |s| - 1 && s[0] in "WE" && s[k] in "NS"
    && forall i :: 0 < i < |s| && i != k ==> IsDigit(s[i])
  }

  predicate IsRoom(s: string) {
    exists k: nat :: k < |s| && IsRoomAt(s, k)
  }

  /** Where the first slash is; the length of s if there is none. */
  function SlashAt(s: string): (k: nat)
    ensures k <= |s| && '/' !in s[..k] && (k < |s| ==> s[k] == '/')
    ensures k < |s| <==> '/' in s
  {
    if s == "" then 0 else if s[0] == '/' then 0 else
    var k := SlashAt(s[1..]);
    assert s[..k + 1] == [s[0]] + s[1..][..k];
    k + 1
  }

  function Format(t: RoomTarget): string {
    t.shard + "/" + t.room
  }

  function RoomTargetFromValue(value: Json, defaultShard: string): Option<RoomTarget> {
    if !value.Str? then None else
    var text := Strip(value.s);
    var k := SlashAt(text);
    if text == "" then None
    else if k < |text| then
      if IsShard(text[..k]) && IsRoom(text[k + 1..]) then Some(RoomTarget(text[..k], text[k + 1..])) else None
    else if IsRoom(text) then Some(RoomTarget(defaultShard, text))
    else None
  }

  lemma {:induction false} FirstSlash(front: string, back: string)
    requires '/' !in front
    ensures SlashAt(front + "/" + back) == |front|
  {
    var s := front + "/" + back;
    if front == "" {
    } else {
      assert s[1..] == front[1..] + "/" + back;
      FirstSlash(front[1..], back);
    }
  }

  lemma RoomHasNoSlash(room: string)
    requires IsRoom(room)
    ensures room != "" && '/' !in room && !IsSpace(room[0]) && !IsSpace(room[|room| - 1])
  {
    var k: nat :| k < |room| && IsRoomAt(room, k);
    forall i | 0 <= i < |room| ensures room[i] != '/' {}
  }

  /** Parsing succeeds exactly on the two spellings of a target, surrounding blanks aside. */
  lemma ParseExactly(s: string, defaultShard: string, t: RoomTarget)
    ensures RoomTargetFromValue(Str(s), defaultShard) == Some(t) <==>
              IsRoom(t.room) && ((IsShard(t.shard) && Strip(s) == Format(t))
                                 || (t.shard == defaultShard && Strip(s) == t.room))
  {
    var text := Strip(s);
    var k := SlashAt(text);
    if k < |text| {
      assert text == text[..k] + "/" + text[k + 1..];
    }
    if IsRoom(t.room) {
      RoomHasNoSlash(t.room);
      if IsShard(t.shard) && text == Format(t) {
        assert '/' !in t.shard;
        FirstSlash(t.shard, t.room);
        assert text[..k] == t.shard && text[k + 1..] == t.room;
      }
    }
  }

  /** A formatted target reads back as itself. */
  lemma FormatParse(t: RoomTarget, defaultShard: string)
    requires IsShard(t.shard) && IsRoom(t.room)
    ensures RoomTargetFromValue(Str(Format(t)), defaultShard) == Some(t)
  {
    RoomHasNoSlash(t.room);
    var s := Format(t);
    assert s[0] == t.shard[0] && t.shard[0] in t.shard && s[|s| - 1] == t.room[|t.room| - 1];
    ParseExactly(s, defaultShard, t);
  }

  // ---------- recovery targets ----------

  function TargetOf(link: Link, shard: string): seq<RoomTarget> {
    if !IsTrigger(link.kind) then [] else
    var t := RoomTargetFromValue(link.room, shard);
    if t.Some? then [t.value] else []
  }

  function RoomTargetsFromReason(reason: Json, shard: string, inherited: Json): seq<RoomTarget> {
    if !reason.Obj? then [] else
    var room := if "room" in reason.fields then reason.fields["room"] else inherited;
    TargetOf(Link(Field(reason, "kind"), room), shard)
    + if "source" in reason.fields then RoomTargetsFromReason(reason.fields["source"], shard, room) else []
  }

  lemma {:induction false} TargetsByChain(reason: Json, shard: string, inherited: Json, t: RoomTarget)
    ensures t in RoomTargetsFromReason(reason, shard, inherited)
       <==> exists link :: link in Chain(reason, inherited) && t in TargetOf(link, shard)
  {
    if !reason.Obj? {
    } else {
      var chain := Chain(reason, inherited);
      assert chain[0] in chain;
      if "source" in reason.fields {
        TargetsByChain(reason.fields["source"], shard, chain[0].room, t);
        assert forall link :: link in chain[1..] ==> link in chain;
        assert chain == [chain[0]] + chain[1..];
      }
    }
  }

  /** What one reason contributes: its parsed rooms, or the configured room if it triggers without any. */
  function Contribution(reason: Json, home: RoomTarget): seq<RoomTarget> {
    var parsed := RoomTargetsFromReason(reason, home.shard, Null);
    if parsed == [] && ReasonTriggers(reason) then [home] else parsed
  }

  /** The recovery list of a failed gate: never empty, no repetition, exactly the contributions of its
      reasons, or the configured room alone if there are none. */
  ghost predicate AreRecoveryTargets(gate: Json, home: RoomTarget, targets: seq<RoomTarget>) {
    && targets != [] && Distinct(targets)
    && ((forall reason :: reason in Reasons(gate) ==> Contribution(reason, home) == []) ==> targets == [home])
    && ((exists reason :: reason in Reasons(gate) && Contribution(reason, home) != []) ==>
          forall t :: t in targets <==> exists reason :: reason in Reasons(gate) && t in Contribution(reason, home))
  }

  ghost predicate Gathers(reasons: seq<Json>, home: RoomTarget, targets: seq<RoomTarget>) {
    && Distinct(targets)
    && forall t :: t in targets <==> exists reason :: reason in reasons && t in Contribution(reason, home)
  }

  lemma GatherOne(reasons: seq<Json>, home: RoomTarget, targets: seq<RoomTarget>, reason: Json, more: seq<RoomTarget>)
    requires Gathers(reasons, home, targets) && Distinct(more)
    requires forall t :: t in more <==> t in targets || t in Contribution(reason, home)
    ensures Gathers(reasons + [reason], home, more)
  {
    forall t ensures t in more <==> exists r :: r in reasons + [reason] && t in Contribution(r, home) {
      assert reason in reasons + [reason];
      if t in targets {
        var r :| r in reasons && t in Contribution(r, home);
        assert r in reasons + [reason];
      }
      if exists r :: r in reasons + [reason] && t in Contribution(r, home) {
        var r :| r in reasons + [reason] && t in Contribution(r, home);
        assert r in reasons || r == reason;
      }
    }
  }

  /** Appends what is not listed yet. */
  method AddTargets(before: seq<RoomTarget>, own: seq<RoomTarget>) returns (targets: seq<RoomTarget>)
    requires Distinct(before)
    ensures Distinct(targets) && forall t :: t in targets <==> t in before || t in own
  {
    targets := before;
    for j := 0 to |own|
      invariant Distinct(targets)
      invariant forall t :: t in targets <==> t in before || t in own[..j]
    {
      assert own[..j + 1] == own[..j] + [own[j]];
      if own[j] !in targets {
        targets := targets + [own[j]];
      }
    }
    assert own[..|own|] == own;
  }

  method AutoRollbackRecoveryTargets(home: RoomTarget, gate: Json) returns (targets: seq<RoomTarget>)
    ensures AreRecoveryTargets(gate, home, targets)
  {
    var reasons := Reasons(gate);
    targets := [];
    for i := 0 to |reasons|
      invariant Gathers(reasons[..i], home, targets)
    {
      var own := RoomTargetsFromReason(reasons[i], home.shard, Null);
      if own == [] && ReasonTriggers(reasons[i]) {
        own := [home];
      }
      ghost var before := targets;
      targets := AddTargets(targets, own);
      assert own == Contribution(reasons[i], home);
      GatherOne(reasons[..i], home, before, reasons[i], targets);
      assert reasons[..i + 1] == reasons[..i] + [reasons[i]];
    }
    assert reasons[..|reasons|] == reasons;
    GatheredAll(gate, home, targets);
    if targets == [] {
      targets := [home];
    }
  }

  lemma GatheredAll(gate: Json, home: RoomTarget, targets: seq<RoomTarget>)
    requires Gathers(Reasons(gate), home, targets)
    ensures AreRecoveryTargets(gate, home, if targets == [] then [home] else targets)
  {
    hide Contribution, Reasons;
    if targets != [] {
      assert targets[0] in targets;
    }
    if reason :| reason in Reasons(gate) && Contribution(reason, home) != [] {
      assert Contribution(reason, home)[0] in targets;
    }
  }

  /** Every triggering reason is covered: by each room that one of its trigger levels names, and by the
      configured room if none of them names a readable one. */
  lemma TargetsCoverTriggers(gate: Json, home: RoomTarget, targets: seq<RoomTarget>, reason: Json)
    requires AreRecoveryTargets(gate, home, targets)
    requires reason in Reasons(gate) && ReasonTriggers(reason)
    ensures forall link, t :: (link in Chain(reason, Null) && IsTrigger(link.kind)
              && RoomTargetFromValue(link.room, home.shard) == Some(t)) ==> t in targets
    ensures (forall link :: link in Chain(reason, Null) && IsTrigger(link.kind) ==>
              RoomTargetFromValue(link.room, home.shard).None?) ==> home in targets
  {
    var own := Contribution(reason, home);
    var parsed := RoomTargetsFromReason(reason, home.shard, Null);
    assert own != [];
    forall link, t | link in Chain(reason, Null) && IsTrigger(link.kind)
           && RoomTargetFromValue(link.room, home.shard) == Some(t)
      ensures t in targets
    {
      TargetsByChain(reason, home.shard, Null, t);
      assert t in TargetOf(link, home.shard);
      assert t in own;
    }
    if parsed != [] {
      TargetsByChain(reason, home.shard, Null, parsed[0]);
    } else {
      assert home in own;
    }
  }

  /** Nothing else is waited for: a target is the configured room or named by a trigger level of a reason. */
  lemma TargetsAreJustified(gate: Json, home: RoomTarget, targets: seq<RoomTarget>, t: RoomTarget)
    requires AreRecoveryTargets(gate, home, targets) && t in targets && t != home
    ensures exists reason, link :: reason in Reasons(gate) && link in Chain(reason, Null) && IsTrigger(link.kind)
              && RoomTargetFromValue(link.room, home.shard) == Some(t)
  {
    var reason :| reason in Reasons(gate) && t in Contribution(reason, home);
    TargetsByChain(reason, home.shard, Null, t);
  }
}
