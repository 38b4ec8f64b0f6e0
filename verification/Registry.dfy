/** The conclusion registry: reading record maps out of JSON and merging a producer's records. */
module Registry {
  import opened Basics
  import opened JsonValues

  /** Every failure is one exception class; its wording is not modelled. */
  datatype Refusal = Refused

  type Records = map<string, Record>

  const METADATA_KEYS: seq<string> :=
    ["schemaVersion", "registryType", "type", "lastUpdatedAt", "updatedAt", "updatedBy", "summary"]

  const WRAPPER_KEYS: set<string> := {"conclusions", "entries"}

  predicate MetadataOnly(ids: set<string>) {
    ids != {} && forall id :: id in ids ==> id in METADATA_KEYS
  }

  // ---------- normalisation ----------

  /** The identifier a record goes by: its own one if that is text, else the key it sits under. */
  function IdOf(key: string, item: Record): string {
    if Get(item, "conclusionId").Str? then item["conclusionId"].s else key
  }

  function Keyed(id: string, item: Record): Record {
    item["conclusionId" := Str(id)]
  }

  predicate GoodEntry(key: string, item: Json) {
    item.Obj? && IdOf(key, item.fields) != ""
  }

  predicate GoodEntries(o: Record) {
    && (forall k :: k in o ==> GoodEntry(k, o[k]))
    && (forall k, l :: k in o && l in o && k != l ==> IdOf(k, o[k].fields) != IdOf(l, o[l].fields))
  }

  /** An object whose values are records. */
  function FromObject(o: Record): Result<Records, Refusal> {
    if !GoodEntries(o) then Err(Refused) else
    Ok(map k | k in o :: IdOf(k, o[k].fields) := Keyed(IdOf(k, o[k].fields), o[k].fields))
  }

  /** A list of records; without a key of its own each of them needs a textual identifier. */
  function FromList(items: seq<Json>): Result<Records, Refusal> {
    if items == [] then Ok(map[]) else
    var last := items[|items| - 1];
    match FromList(items[..|items| - 1])
    case Err(e) => Err(e)
    case Ok(records) =>
      if !GoodEntry("", last) || IdOf("", last.fields) in records then Err(Refused)
      else Ok(records[IdOf("", last.fields) := Keyed(IdOf("", last.fields), last.fields)])
  }

  function Combine(a: Result<Records, Refusal>, b: Result<Records, Refusal>): Result<Records, Refusal> {
    if a.Ok? && b.Ok? && a.value.Keys !! b.value.Keys then Ok(a.value + b.value) else Err(Refused)
  }

  function Normalize(v: Json): (r: Result<Records, Refusal>)
    decreases v
  {
    match v
    case Null => Ok(map[])
    case Arr(items) => FromList(items)
    case Obj(o) =>
      if Get(o, "conclusionId").Str? then
        var id := o["conclusionId"].s;
        if id == "" then Err(Refused) else Ok(map[id := o])
      else if "conclusions" in o && "entries" in o then
        Combine(Normalize(o["conclusions"]), Normalize(o["entries"]))
      else if "conclusions" in o then Normalize(o["conclusions"])
      else if "entries" in o then Normalize(o["entries"])
      else if MetadataOnly(o.Keys) then Ok(map[])
      else FromObject(o)
    case _ => Err(Refused)
  }

  lemma SameRecords(a: Records, b: Records)
    requires forall id :: id in a <==> id in b
    requires forall id :: id in a ==> a[id] == b[id]
    ensures a == b
  {
  }

  /** What the scan of an object's items has gathered once the keys in `order` are done. */
  ghost predicate Gathered(o: Record, order: seq<string>, records: Records)
    requires forall k :: k in order ==> k in o
  {
    && (forall k :: k in order ==> GoodEntry(k, o[k]))
    && (forall k, l :: k in order && l in order && k != l ==> IdOf(k, o[k].fields) != IdOf(l, o[l].fields))
    && (forall k :: k in order ==> IdOf(k, o[k].fields) in records)
    && (forall id :: id in records ==> exists k :: k in order && IdOf(k, o[k].fields) == id)
    && (forall k :: k in order ==> records[IdOf(k, o[k].fields)] == Keyed(IdOf(k, o[k].fields), o[k].fields))
  }

  lemma GatherOne(o: Record, order: seq<string>, records: Records, key: string)
    requires forall k :: k in order ==> k in o
    requires Gathered(o, order, records) && key in o && key !in order
    requires GoodEntry(key, o[key]) && IdOf(key, o[key].fields) !in records
    ensures var id := IdOf(key, o[key].fields);
            Gathered(o, order + [key], records[id := Keyed(id, o[key].fields)])
  {
    var id := IdOf(key, o[key].fields);
    var more := records[id := Keyed(id, o[key].fields)];
    forall i | i in more ensures exists k :: k in order + [key] && IdOf(k, o[k].fields) == i {
      if i == id {
        assert key in order + [key];
      } else {
        var k :| k in order && IdOf(k, o[k].fields) == i;
        assert k in order + [key];
      }
    }
  }

  lemma GatheredAll(o: Record, order: seq<string>, records: Records)
    requires forall k :: k in order <==> k in o
    requires Gathered(o, order, records)
    ensures FromObject(o) == Ok(records)
  {
    assert GoodEntries(o);
    SameRecords(FromObject(o).value, records);
  }

  /** Reads the items of an object, in whatever order they are listed. */
  method GatherObject(o: Record) returns (r: Result<Records, Refusal>)
    ensures r == FromObject(o)
  {
    var records: Records := map[];
    var todo := o.Keys;
    ghost var order := [];
    while todo != {}
      invariant todo <= o.Keys
      invariant forall k :: k in order <==> k in o && k !in todo
      invariant Gathered(o, order, records)
      decreases todo
    {
      var key :| key in todo;
      if !o[key].Obj? {
        return Err(Refused);
      }
      var id := IdOf(key, o[key].fields);
      if id == "" || id in records {
        return Err(Refused);
      }
      GatherOne(o, order, records, key);
      records := records[id := Keyed(id, o[key].fields)];
      order := order + [key];
      todo := todo - {key};
    }
    GatheredAll(o, order, records);
    r := Ok(records);
  }

  method GatherList(items: seq<Json>) returns (r: Result<Records, Refusal>)
    ensures r == FromList(items)
  {
    var records: Records := map[];
    for i := 0 to |items|
      invariant FromList(items[..i]) == Ok(records)
    {
      assert items[..i + 1][..i] == items[..i];
      if !GoodEntry("", items[i]) || IdOf("", items[i].fields) in records {
        assert FromList(items[..i + 1]) == Err(Refused);
        RefusedStays(items, i + 1);
        return Err(Refused);
      }
      records := records[IdOf("", items[i].fields) := Keyed(IdOf("", items[i].fields), items[i].fields)];
    }
    assert items[..|items|] == items;
    r := Ok(records);
  }

  lemma {:induction false} RefusedStays(items: seq<Json>, n: nat)
    requires n <= |items| && FromList(items[..n]) == Err(Refused)
    ensures FromList(items) == Err(Refused)
  {
    if n == |items| {
      assert items[..n] == items;
    } else {
      var front := items[..|items| - 1];
      assert front[..n] == items[..n];
      RefusedStays(front, n);
    }
  }

  /** The recursive reader as the script runs it. */
  method NormalizeConclusions(v: Json) returns (r: Result<Records, Refusal>)
    ensures r == Normalize(v)
    decreases v
  {
    match v
    case Null => r := Ok(map[]);
    case Arr(items) => r := GatherList(items);
    case Obj(o) =>
      if Get(o, "conclusionId").Str? {
        if o["conclusionId"].s == "" {
          return Err(Refused);
        }
        return Ok(map[o["conclusionId"].s := o]);
      }
      if "conclusions" in o && "entries" in o {
        var a := NormalizeConclusions(o["conclusions"]);
        var b := NormalizeConclusions(o["entries"]);
        return Combine(a, b);
      }
      if "conclusions" in o {
        r := NormalizeConclusions(o["conclusions"]);
      } else if "entries" in o {
        r := NormalizeConclusions(o["entries"]);
      } else if MetadataOnly(o.Keys) {
        r := Ok(map[]);
      } else {
        r := GatherObject(o);
      }
    case _ => r := Err(Refused);
  }

  /** Every record sits under its own non-empty identifier. */
  predicate SelfKeyed(m: Records) {
    forall id :: id in m ==> id != "" && Get(m[id], "conclusionId") == Str(id)
  }

  lemma {:induction false} FromListSelfKeyed(items: seq<Json>)
    ensures FromList(items).Ok? ==> SelfKeyed(FromList(items).value)
  {
    if items == [] {
    } else {
      FromListSelfKeyed(items[..|items| - 1]);
    }
  }

  /** Whatever shape was read, the records come out under their own identifiers. */
  lemma {:induction false} NormalizeSelfKeyed(v: Json)
    ensures Normalize(v).Ok? ==> SelfKeyed(Normalize(v).value)
    decreases v
  {
    match v
    case Arr(items) => FromListSelfKeyed(items);
    case Obj(o) =>
      if !Get(o, "conclusionId").Str? {
        if "conclusions" in o { NormalizeSelfKeyed(o["conclusions"]); }
        if "entries" in o { NormalizeSelfKeyed(o["entries"]); }
      }
    case _ =>
  }

  // ---------- saving and loading ----------

  function Wrap(m: Records): Record {
    map id | id in m :: Obj(m[id])
  }

  /** The identifiers that come back when a saved record table is read again. */
  function Survivors(ids: set<string>): set<string> {
    if ids * WRAPPER_KEYS != {} then ids * WRAPPER_KEYS
    else if MetadataOnly(ids) then {}
    else ids
  }

  function Restrict(m: Records, ids: set<string>): Records {
    map id | id in m && id in ids :: m[id]
  }

  lemma WrapperEntry(m: Records, key: string)
    requires SelfKeyed(m) && key in m
    ensures Normalize(Wrap(m)[key]) == Ok(map[key := m[key]])
  {
  }

  lemma PlainEntries(m: Records)
    requires SelfKeyed(m)
    ensures FromObject(Wrap(m)) == Ok(m)
  {
    var o := Wrap(m);
    forall k | k in m ensures GoodEntry(k, o[k]) && IdOf(k, o[k].fields) == k && Keyed(k, o[k].fields) == m[k] {
      assert o[k].fields == m[k];
    }
    var n := FromObject(o).value;
    SameRecords(n, m);
  }

  lemma WrapKeys(m: Records)
    ensures Wrap(m).Keys == m.Keys
    ensures !Get(Wrap(m), "conclusionId").Str?
  {
    forall k ensures k in Wrap(m) <==> k in m {}
  }

  lemma NoWrapperKey(o: Record)
    requires "conclusions" !in o && "entries" !in o && !Get(o, "conclusionId").Str?
    ensures Normalize(Obj(o)) == if MetadataOnly(o.Keys) then Ok(map[]) else FromObject(o)
  {
  }

  lemma WrappedWithoutReserved(m: Records)
    requires SelfKeyed(m) && "conclusions" !in m && "entries" !in m
    ensures Normalize(Obj(Wrap(m))) == Ok(if MetadataOnly(m.Keys) then map[] else m)
  {
    WrapKeys(m);
    PlainEntries(m);
    var o := Wrap(m);
    assert "conclusions" !in o.Keys && "entries" !in o.Keys;
    NoWrapperKey(o);
  }

  lemma NoReservedIds(ids: set<string>)
    requires "conclusions" !in ids && "entries" !in ids
    ensures ids * WRAPPER_KEYS == {}
  {
  }

  /** Exactly which records a saved table gives back: all but those hidden by reserved identifiers. */
  lemma NormalizeWrapped(m: Records)
    requires SelfKeyed(m)
    ensures Normalize(Obj(Wrap(m))) == Ok(Restrict(m, Survivors(m.Keys)))
  {
    if "conclusions" in m || "entries" in m {
      WrappedWithReserved(m);
    } else {
      WrappedWithoutReserved(m);
      NoReservedIds(m.Keys);
      SameRecords(if MetadataOnly(m.Keys) then map[] else m, Restrict(m, Survivors(m.Keys)));
    }
  }

  lemma ByWrapperKey(o: Record, a: Result<Records, Refusal>, b: Result<Records, Refusal>)
    requires !Get(o, "conclusionId").Str? && ("conclusions" in o || "entries" in o)
    requires a == if "conclusions" in o then Normalize(o["conclusions"]) else Ok(map[])
    requires b == if "entries" in o then Normalize(o["entries"]) else Ok(map[])
    requires a.Ok? && b.Ok? && a.value.Keys !! b.value.Keys
    ensures Normalize(Obj(o)) == Ok(a.value + b.value)
  {
    SameRecords(a.value + map[], a.value);
    SameRecords(map[] + b.value, b.value);
  }

  function Single(m: Records, key: string): Records {
    if key in m then map[key := m[key]] else map[]
  }

  lemma WrappedWithReserved(m: Records)
    requires SelfKeyed(m) && ("conclusions" in m || "entries" in m)
    ensures Normalize(Obj(Wrap(m))) == Ok(Restrict(m, m.Keys * WRAPPER_KEYS))
    ensures m.Keys * WRAPPER_KEYS != {}
  {
    WrapKeys(m);
    var o := Wrap(m);
    assert o.Keys == m.Keys;
    assert "conclusions" in m.Keys * WRAPPER_KEYS || "entries" in m.Keys * WRAPPER_KEYS;
    if "conclusions" in m { WrapperEntry(m, "conclusions"); }
    if "entries" in m { WrapperEntry(m, "entries"); }
    ByWrapperKey(o, Ok(Single(m, "conclusions")), Ok(Single(m, "entries")));
    ReservedPart(m);
  }

  lemma ReservedPart(m: Records)
    ensures Single(m, "conclusions") + Single(m, "entries") == Restrict(m, m.Keys * WRAPPER_KEYS)
  {
    SameRecords(Single(m, "conclusions") + Single(m, "entries"), Restrict(m, m.Keys * WRAPPER_KEYS));
  }

  /** The registry document a merge writes. */
  function Document(schemaVersion: Json, registryType: Json, updatedAt: string, updatedBy: string,
                    conclusions: Records, summary: Json): Json {
    Obj(map[
      "schemaVersion" := schemaVersion, "registryType" := registryType,
      "lastUpdatedAt" := Str(updatedAt), "updatedBy" := Str(updatedBy),
      "conclusions" := Obj(Wrap(conclusions)), "summary" := summary])
  }

  predicate SafeIds(ids: set<string>) {
    if "conclusions" in ids || "entries" in ids then ids <= WRAPPER_KEYS
    else !MetadataOnly(ids)
  }

  lemma SafeIdsSurvive(ids: set<string>)
    ensures SafeIds(ids) <==> Survivors(ids) == ids
  {
    if "conclusions" in ids || "entries" in ids {
      assert "conclusions" in ids * WRAPPER_KEYS || "entries" in ids * WRAPPER_KEYS;
    } else {
      NoReservedIds(ids);
    }
  }

  lemma LoadReadsConclusions(sv: Json, rt: Json, at: string, author: string, m: Records, summary: Json)
    ensures Normalize(Document(sv, rt, at, author, m, summary)) == Normalize(Obj(Wrap(m)))
  {
    var o := Document(sv, rt, at, author, m, summary).fields;
    assert "conclusionId" !in o && "entries" !in o;
    assert o["conclusions"] == Obj(Wrap(m));
  }

  /** Saving and loading gives the same records exactly when the identifiers are safe. */
  lemma SaveLoadRoundTrip(sv: Json, rt: Json, at: string, author: string, m: Records, summary: Json)
    requires SelfKeyed(m)
    ensures Normalize(Document(sv, rt, at, author, m, summary)) == Ok(Restrict(m, Survivors(m.Keys)))
    ensures Normalize(Document(sv, rt, at, author, m, summary)) == Ok(m) <==> SafeIds(m.Keys)
  {
    LoadReadsConclusions(sv, rt, at, author, m, summary);
    NormalizeWrapped(m);
    SafeIdsSurvive(m.Keys);
    RestrictWhole(m, Survivors(m.Keys));
  }

  lemma RestrictWhole(m: Records, ids: set<string>)
    requires ids <= m.Keys
    ensures Restrict(m, ids) == m <==> ids == m.Keys
  {
    var r := Restrict(m, ids);
    forall k ensures k in r.Keys <==> k in ids {}
    if ids == m.Keys { SameRecords(r, m); }
  }

  /** A record filed under the identifier "summary" alone is lost. */
  lemma MetadataIdIsLost(sv: Json, rt: Json, at: string, author: string, summary: Json)
    ensures var m: Records := map["summary" := map["conclusionId" := Str("summary")]];
            SelfKeyed(m) && Normalize(Document(sv, rt, at, author, m, summary)) == Ok(map[])
  {
    var m: Records := map["summary" := map["conclusionId" := Str("summary")]];
    SaveLoadRoundTrip(sv, rt, at, author, m, summary);
    assert METADATA_KEYS[6] == "summary";
    assert m.Keys == {"summary"};
    WrappedWithoutReserved(m);
  }

  /** A record called "entries" hides every record beside it. */
  lemma WrapperIdHidesOthers(sv: Json, rt: Json, at: string, author: string, m: Records, summary: Json)
    requires SelfKeyed(m) && "entries" in m && "conclusions" !in m
    ensures Normalize(Document(sv, rt, at, author, m, summary)) == Ok(map["entries" := m["entries"]])
  {
    LoadReadsConclusions(sv, rt, at, author, m, summary);
    WrappedWithReserved(m);
    SameRecords(Restrict(m, m.Keys * WRAPPER_KEYS), map["entries" := m["entries"]]);
  }

  // ---------- merging one producer's records ----------

  /** A producer's contribution, already normalised. */
  datatype Producer = Producer(owner: string, at: string, incoming: Records, prune: bool)

  function OwnerOf(r: Record): Json {
    Get(r, "ownerCron")
  }

  /** No incoming record names another owner, and none would overwrite another owner's record. */
  predicate Admissible(existing: Records, p: Producer) {
    forall id :: id in p.incoming ==>
      && (OwnerOf(p.incoming[id]).Str? ==> OwnerOf(p.incoming[id]) == Str(p.owner))
      && (id in existing ==> OwnerOf(existing[id]) == Null || OwnerOf(existing[id]) == Str(p.owner))
  }

  /** Pruning drops the producer's own records that it no longer reports. */
  predicate Kept(existing: Records, p: Producer, id: string)
    requires id in existing
  {
    !p.prune || id in p.incoming || OwnerOf(existing[id]) != Str(p.owner)
  }

  function Stamp(p: Producer, id: string, r: Record): Record {
    var owned := r["conclusionId" := Str(id)]["ownerCron" := Str(p.owner)];
    if "lastSeenAt" in owned then owned else owned["lastSeenAt" := Str(p.at)]
  }

  function MergeRecords(existing: Records, p: Producer): Result<Records, Refusal> {
    if !Admissible(existing, p) then Err(Refused) else
    var kept := map id | id in existing && Kept(existing, p, id) :: existing[id];
    var stamped := map id | id in p.incoming :: Stamp(p, id, p.incoming[id]);
    Ok(kept + stamped)
  }

  function NewIds(existing: Records, p: Producer): set<string> {
    p.incoming.Keys - existing.Keys
  }

  predicate Closes(existing: Records, p: Producer, closed: Record -> bool, id: string)
    requires id in p.incoming
  {
    id in existing && !closed(existing[id]) && closed(p.incoming[id])
  }

  function ClosedIds(existing: Records, p: Producer, closed: Record -> bool): set<string> {
    set id | id in p.incoming && Closes(existing, p, closed, id)
  }

  function PrunedIds(existing: Records, p: Producer): set<string> {
    set id | id in existing && !Kept(existing, p, id)
  }

  // ---------- what a merge writes, field by field ----------

  /** A record as reported, with the identifier and the producer filled in, and the time of the call if the
      report names none. Nothing else is added, changed or dropped. */
  ghost predicate KeepsReport(reported: Record, stored: Record, id: string, owner: string, at: string) {
    && stored.Keys == reported.Keys + {"conclusionId", "ownerCron", "lastSeenAt"}
    && stored["conclusionId"] == Str(id) && stored["ownerCron"] == Str(owner)
    && stored["lastSeenAt"] == (if "lastSeenAt" in reported then reported["lastSeenAt"] else Str(at))
    && forall f :: f in reported && f != "conclusionId" && f != "ownerCron" ==> stored[f] == reported[f]
  }

  /** The record is filed as the owner's. */
  predicate OwnedBy(r: Record, owner: string) {
    "ownerCron" in r && r["ownerCron"] == Str(owner)
  }

  /** Somebody's, and not the owner's; whatever is filed as owner counts, unless it is null. */
  predicate SomebodyElses(r: Record, owner: string) {
    "ownerCron" in r && r["ownerCron"] != Null && r["ownerCron"] != Str(owner)
  }

  /** What stops a call: a record reported in another producer's name, or filed as somebody else's. */
  predicate Stops(m: Records, p: Producer, id: string)
    requires id in p.incoming
  {
    || ("ownerCron" in p.incoming[id] && p.incoming[id]["ownerCron"].Str? && p.incoming[id]["ownerCron"].s != p.owner)
    || (id in m && SomebodyElses(m[id], p.owner))
  }

  /** Some report stops the call. */
  predicate Stopped(m: Records, p: Producer) {
    exists id :: id in p.incoming && Stops(m, p, id)
  }

  /** The table n after a call: what it reports, as reported; of the rest, everything as it was, but for the
      producer's own records if the call prunes. */
  ghost predicate MergesInto(m: Records, p: Producer, n: Records) {
    forall id ::
      if id in p.incoming then id in n && KeepsReport(p.incoming[id], n[id], id, p.owner, p.at)
      else (id in n <==> id in m && !(p.prune && OwnedBy(m[id], p.owner))) && (id in n ==> n[id] == m[id])
  }

  lemma StampKeepsReport(p: Producer, id: string, r: Record)
    ensures KeepsReport(r, Stamp(p, id, r), id, p.owner, p.at)
  {
  }

  /** A merge is refused exactly if a reported record stops it. */
  lemma MergeStops(m: Records, p: Producer)
    ensures MergeRecords(m, p).Err? <==> Stopped(m, p)
  {
    assert forall id :: id in p.incoming ==> (Stops(m, p, id) <==> Conflict(m, p, id));
  }

  /** A merge is stopped by such a record alone, and otherwise writes the reports and nothing but them. */
  lemma MergeWrites(m: Records, p: Producer)
    ensures MergeRecords(m, p).Err? <==> Stopped(m, p)
    ensures MergeRecords(m, p).Ok? ==> MergesInto(m, p, MergeRecords(m, p).value)
  {
    MergeStops(m, p);
    hide Stopped;
    if MergeRecords(m, p).Ok? {
      MergedLookup(m, p);
      var n := MergeRecords(m, p).value;
      hide MergeRecords, Stamp, KeepsReport;
      forall id | id in p.incoming ensures id in n && KeepsReport(p.incoming[id], n[id], id, p.owner, p.at) {
        StampKeepsReport(p, id, p.incoming[id]);
      }
    }
  }

  // ---------- the producer loop ----------

  /** The table after the producer's loop has visited the records in `order`. */
  ghost predicate MergedSoFar(existing: Records, p: Producer, order: seq<string>, merged: Records)
    requires forall id :: id in order ==> id in p.incoming
  {
    && (forall id :: id in merged <==> id in order || (id in existing && Kept(existing, p, id)))
    && (forall id :: id in merged ==>
          merged[id] == if id in order then Stamp(p, id, p.incoming[id]) else existing[id])
  }

  lemma AllVisited(existing: Records, p: Producer, order: seq<string>, merged: Records)
    requires forall id :: id in order <==> id in p.incoming
    requires MergedSoFar(existing, p, order, merged)
    requires forall id :: id in order ==> !Conflict(existing, p, id)
    ensures MergeRecords(existing, p) == Ok(merged) && !Stopped(existing, p) && MergesInto(existing, p, merged)
  {
    MergeWrites(existing, p);
    hide Stopped, MergesInto;
    assert Admissible(existing, p);
    MergedLookup(existing, p);
    SameRecords(merged, MergeRecords(existing, p).value);
  }

  predicate Conflict(existing: Records, p: Producer, id: string)
    requires id in p.incoming
  {
    || (OwnerOf(p.incoming[id]).Str? && OwnerOf(p.incoming[id]) != Str(p.owner))
    || (id in existing && OwnerOf(existing[id]) != Null && OwnerOf(existing[id]) != Str(p.owner))
  }

  /** How many of the visited identifiers belong to a set. */
  ghost function Hits(order: seq<string>, ids: set<string>): nat {
    if order == [] then 0
    else Hits(order[..|order| - 1], ids) + if order[|order| - 1] in ids then 1 else 0
  }

  lemma {:induction false} HitsWithout(order: seq<string>, ids: set<string>, id: string)
    requires id !in order
    ensures Hits(order, ids - {id}) == Hits(order, ids)
  {
    if order == [] {
    } else {
      HitsWithout(order[..|order| - 1], ids, id);
    }
  }

  /** Visiting every member of a set once counts its members. */
  lemma {:induction false} HitsAll(order: seq<string>, ids: set<string>)
    requires Distinct(order) && forall id :: id in ids ==> id in order
    ensures Hits(order, ids) == |ids|
  {
    if order == [] {
      assert ids == {};
    } else {
      var front, last := order[..|order| - 1], order[|order| - 1];
      assert order == front + [last];
      HitsAll(front, ids - {last});
      HitsWithout(front, ids, last);
    }
  }

  lemma AllHit(existing: Records, p: Producer, closed: Record -> bool, order: seq<string>)
    requires Distinct(order) && forall id :: id in order <==> id in p.incoming
    ensures Hits(order, NewIds(existing, p)) == |NewIds(existing, p)|
    ensures Hits(order, ClosedIds(existing, p, closed)) == |ClosedIds(existing, p, closed)|
  {
    HitsAll(order, NewIds(existing, p));
    HitsAll(order, ClosedIds(existing, p, closed));
  }

  lemma VisitOne(existing: Records, p: Producer, order: seq<string>, merged: Records, id: string)
    requires forall k :: k in order ==> k in p.incoming
    requires MergedSoFar(existing, p, order, merged) && id in p.incoming
    ensures MergedSoFar(existing, p, order + [id], merged[id := Stamp(p, id, p.incoming[id])])
  {
  }

  /** The producer loop: it visits the incoming records in any order and stops at the first conflict. */
  method MergeIncoming(existing: Records, p: Producer, closed: Record -> bool)
    returns (r: Result<Records, Refusal>, newCount: nat, closedCount: nat)
    ensures r == MergeRecords(existing, p)
    ensures r.Err? <==> Stopped(existing, p)
    ensures r.Ok? ==> MergesInto(existing, p, r.value)
    ensures r.Ok? ==> newCount == |NewIds(existing, p)| && closedCount == |ClosedIds(existing, p, closed)|
  {
    hide MergeRecords, Stamp, Closes, Conflict, Stopped, MergesInto;
    var merged := existing;
    if p.prune {
      merged := map id | id in existing && (id in p.incoming || OwnerOf(existing[id]) != Str(p.owner)) :: existing[id];
    }
    newCount, closedCount := 0, 0;
    var todo := p.incoming.Keys;
    ghost var order := [];
    while todo != {}
      invariant forall id :: id in order ==> id in p.incoming && id !in todo
      invariant forall id :: id in p.incoming ==> id in todo || id in order
      invariant todo <= p.incoming.Keys && Distinct(order)
      invariant MergedSoFar(existing, p, order, merged)
      invariant forall id :: id in order ==> !Conflict(existing, p, id)
      invariant newCount == Hits(order, NewIds(existing, p))
      invariant closedCount == Hits(order, ClosedIds(existing, p, closed))
      decreases todo
    {
      var id :| id in todo;
      if Conflict(existing, p, id) {
        ConflictRefuses(existing, p, id);
        return Err(Refused), newCount, closedCount;
      }
      if id !in existing {
        newCount := newCount + 1;
      }
      if Closes(existing, p, closed, id) {
        closedCount := closedCount + 1;
      }
      VisitOne(existing, p, order, merged, id);
      merged := merged[id := Stamp(p, id, p.incoming[id])];
      assert (order + [id])[..|order|] == order;
      order := order + [id];
      todo := todo - {id};
    }
    AllVisited(existing, p, order, merged);
    AllHit(existing, p, closed, order);
    r := Ok(merged);
  }

  lemma ConflictRefuses(existing: Records, p: Producer, id: string)
    requires id in p.incoming && Conflict(existing, p, id)
    ensures MergeRecords(existing, p) == Err(Refused) && Stopped(existing, p)
  {
    MergeWrites(existing, p);
  }

  // ---------- what merges keep ----------

  predicate AllOwned(m: Records) {
    forall id :: id in m ==> OwnerOf(m[id]).Str?
  }

  lemma StampFacts(p: Producer, id: string, r: Record)
    ensures OwnerOf(Stamp(p, id, r)) == Str(p.owner)
    ensures Get(Stamp(p, id, r), "conclusionId") == Str(id)
  {
  }

  /** The merged table, one identifier at a time. */
  lemma MergedLookup(m: Records, p: Producer)
    requires MergeRecords(m, p).Ok?
    ensures var n := MergeRecords(m, p).value;
            && (forall id :: id in n <==> id in p.incoming || (id in m && Kept(m, p, id)))
            && (forall id :: id in n ==> n[id] == if id in p.incoming then Stamp(p, id, p.incoming[id]) else m[id])
  {
  }

  /** Nobody else's record changes: what another owner holds, or nobody owns and the producer does not
      report, stays; and whatever is not the producer's afterwards was there before. */
  lemma OthersUntouched(m: Records, p: Producer)
    requires MergeRecords(m, p).Ok?
    ensures var n := MergeRecords(m, p).value;
            && (forall id :: id in m && id !in p.incoming && OwnerOf(m[id]) != Str(p.owner) ==>
                id in n && n[id] == m[id])
            && (forall id :: id in n && OwnerOf(n[id]) != Str(p.owner) ==> id in m && n[id] == m[id])
            && (forall id :: id in m && OwnerOf(m[id]) != Null && OwnerOf(m[id]) != Str(p.owner) ==>
                id in n && n[id] == m[id])
  {
    MergedLookup(m, p);
    var n := MergeRecords(m, p).value;
    forall id | id in n && OwnerOf(n[id]) != Str(p.owner) ensures id in m && n[id] == m[id] {
      if id in p.incoming { StampFacts(p, id, p.incoming[id]); }
    }
  }

  /** Merging keeps records under their own identifiers, and owned if they were. */
  lemma MergeInvariants(m: Records, p: Producer)
    requires SelfKeyed(m) && SelfKeyed(p.incoming)
    requires MergeRecords(m, p).Ok?
    ensures SelfKeyed(MergeRecords(m, p).value)
    ensures AllOwned(m) ==> AllOwned(MergeRecords(m, p).value)
  {
    MergedLookup(m, p);
    var n := MergeRecords(m, p).value;
    forall id | id in n
      ensures id != "" && Get(n[id], "conclusionId") == Str(id)
      ensures AllOwned(m) ==> OwnerOf(n[id]).Str?
    {
      if id in p.incoming { StampFacts(p, id, p.incoming[id]); }
    }
  }

  lemma SetSizes<T>(a: set<T>, drop: set<T>, add: set<T>)
    requires drop <= a && add !! a
    ensures |(a - drop) + add| == |a| - |drop| + |add|
  {
    assert a == (a - drop) + drop;
  }

  lemma MergedKeys(m: Records, p: Producer)
    requires MergeRecords(m, p).Ok?
    ensures MergeRecords(m, p).value.Keys == (m.Keys - PrunedIds(m, p)) + NewIds(m, p)
  {
    MergedLookup(m, p);
    var n := MergeRecords(m, p).value;
    forall id ensures id in n.Keys <==> id in (m.Keys - PrunedIds(m, p)) + NewIds(m, p) {}
  }

  lemma TableSizes(m: Records, n: Records, drop: set<string>, add: set<string>)
    requires n.Keys == (m.Keys - drop) + add && drop <= m.Keys && add !! m.Keys
    ensures |n| == |m| - |drop| + |add|
  {
    SetSizes(m.Keys, drop, add);
  }

  /** Records are conserved: what is there afterwards is what was there, less the pruned, plus the new. */
  lemma MergeConserves(m: Records, p: Producer)
    requires MergeRecords(m, p).Ok?
    ensures MergeRecords(m, p).value.Keys == (m.Keys - PrunedIds(m, p)) + NewIds(m, p)
    ensures |MergeRecords(m, p).value| == |m| - |PrunedIds(m, p)| + |NewIds(m, p)|
  {
    MergedKeys(m, p);
    TableSizes(m, MergeRecords(m, p).value, PrunedIds(m, p), NewIds(m, p));
  }
}
