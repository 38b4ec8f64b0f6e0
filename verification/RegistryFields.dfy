/** What reading and merging come to, field by field, in the words of the payloads alone. */
module RegistryFields {
  import opened Basics
  import opened JsonValues
  import opened Registry
  import opened RegistryMerges
  import opened RegistryViews
  import opened RegistryReports
  import opened RegistryStore

  // ---------- what a reader takes from a payload ----------

  /** An entry goes by its own identifier if that is text, and by the key it sits under otherwise. */
  function Name(key: string, item: Json): string {
    match item
    case Obj(fields) =>
      if "conclusionId" in fields && fields["conclusionId"].Str? then fields["conclusionId"].s else key
    case _ => key
  }

  /** The record read from an entry: its fields, with the identifier filled in. */
  ghost predicate Reads(item: Json, id: string, r: Record) {
    && item.Obj? && id != "" && r.Keys == item.fields.Keys + {"conclusionId"} && r["conclusionId"] == Str(id)
    && forall f :: f in item.fields && f != "conclusionId" ==> r[f] == item.fields[f]
  }

  /** Every entry of an object gives one record, no two go by one identifier, and there are no others. */
  ghost predicate ReadsObject(o: Record, m: Records) {
    && (forall k :: k in o ==> Name(k, o[k]) in m && Reads(o[k], Name(k, o[k]), m[Name(k, o[k])]))
    && (forall id :: id in m ==> exists k :: k in o && Name(k, o[k]) == id)
    && (forall k, l :: k in o && l in o && k != l ==> Name(k, o[k]) != Name(l, o[l]))
  }

  /** Likewise for the entries of a list, which have no key to fall back on. */
  ghost predicate ReadsList(items: seq<Json>, m: Records) {
    && (forall i :: 0 <= i < |items| ==>
          Name("", items[i]) in m && Reads(items[i], Name("", items[i]), m[Name("", items[i])]))
    && (forall id :: id in m ==> exists i :: 0 <= i < |items| && Name("", items[i]) == id)
    && (forall i, j :: 0 <= i < j < |items| ==> Name("", items[i]) != Name("", items[j]))
  }

  lemma ItemReads(key: string, item: Json, r: Record)
    ensures GoodEntry(key, item) ==> item.Obj? && IdOf(key, item.fields) == Name(key, item)
    ensures Reads(item, Name(key, item), r) ==> item.Obj?
    ensures GoodEntry(key, item) && r == Keyed(IdOf(key, item.fields), item.fields) <==> Reads(item, Name(key, item), r)
  {
    if Reads(item, Name(key, item), r) {
      var s := Keyed(Name(key, item), item.fields);
      assert forall f :: f in r <==> f in r.Keys;
      assert forall f :: f in r ==> f in s && r[f] == s[f];
      assert r == s;
    }
  }

  lemma EntryIsRead(o: Record, m: Records, k: string)
    requires FromObject(o) == Ok(m) && k in o
    ensures o[k].Obj? && IdOf(k, o[k].fields) == Name(k, o[k])
    ensures Name(k, o[k]) in m && Reads(o[k], Name(k, o[k]), m[Name(k, o[k])])
  {
    assert GoodEntry(k, o[k]);
    hide IdOf, Keyed, GoodEntry, Name, Reads;
    ItemReads(k, o[k], m[IdOf(k, o[k].fields)]);
  }

  lemma ReadFromEntry(o: Record, m: Records, id: string)
    requires FromObject(o) == Ok(m) && id in m
    ensures exists k :: k in o && Name(k, o[k]) == id
  {
    hide IdOf, Keyed, Name, Reads;
    var k :| k in o && IdOf(k, o[k].fields) == id;
    EntryIsRead(o, m, k);
  }

  lemma EntriesDiffer(o: Record, m: Records, k: string, l: string)
    requires FromObject(o) == Ok(m) && k in o && l in o && k != l
    ensures Name(k, o[k]) != Name(l, o[l])
  {
    hide IdOf, Keyed, Name, Reads;
    EntryIsRead(o, m, k);
    EntryIsRead(o, m, l);
  }

  lemma ObjectReads(o: Record, m: Records)
    requires FromObject(o) == Ok(m)
    ensures ReadsObject(o, m)
  {
    hide FromObject, IdOf, Name, Reads;
    forall k | k in o ensures Name(k, o[k]) in m && Reads(o[k], Name(k, o[k]), m[Name(k, o[k])]) {
      EntryIsRead(o, m, k);
    }
    forall id | id in m ensures exists k :: k in o && Name(k, o[k]) == id {
      ReadFromEntry(o, m, id);
    }
    forall k, l | k in o && l in o && k != l ensures Name(k, o[k]) != Name(l, o[l]) {
      EntriesDiffer(o, m, k, l);
    }
  }

  lemma ReadsBack(o: Record, m: Records)
    requires ReadsObject(o, m)
    ensures FromObject(o) == Ok(m)
  {
    hide IdOf, Keyed, GoodEntry, Name, Reads;
    forall k | k in o ensures GoodEntry(k, o[k]) && o[k].Obj? && IdOf(k, o[k].fields) == Name(k, o[k])
                              && m[Name(k, o[k])] == Keyed(Name(k, o[k]), o[k].fields)
    {
      ItemReads(k, o[k], m[Name(k, o[k])]);
    }
    assert GoodEntries(o);
    SameRecords(FromObject(o).value, m);
  }

  /** An object is read exactly into the records of its entries, and refused if there are no such records. */
  lemma ObjectRead(o: Record, m: Records)
    ensures FromObject(o) == Ok(m) <==> ReadsObject(o, m)
  {
    hide FromObject, ReadsObject;
    if FromObject(o) == Ok(m) { ObjectReads(o, m); }
    if ReadsObject(o, m) { ReadsBack(o, m); }
  }

  lemma ReadsMore(front: seq<Json>, last: Json, m: Records, id: string, r: Record)
    requires id == Name("", last) && id !in m && Reads(last, id, r)
    ensures ReadsList(front, m) ==> ReadsList(front + [last], m[id := r])
  {
    if ReadsList(front, m) {
      var items, more := front + [last], m[id := r];
      forall k | k in more ensures exists i :: 0 <= i < |items| && Name("", items[i]) == k {
        if k == id {
          assert items[|front|] == last;
        } else {
          var i :| 0 <= i < |front| && Name("", front[i]) == k;
          assert items[i] == front[i];
        }
      }
    }
  }

  lemma ReadsLess(front: seq<Json>, last: Json, m: Records)
    requires ReadsList(front + [last], m)
    ensures var id := Name("", last); id in m && Reads(last, id, m[id]) && ReadsList(front, m - {id})
  {
    var id, items := Name("", last), front + [last];
    assert items[|front|] == last;
    var less := m - {id};
    forall i | 0 <= i < |front|
      ensures Name("", front[i]) in less && Reads(front[i], Name("", front[i]), less[Name("", front[i])])
    {
      assert items[i] == front[i];
    }
    forall k | k in less ensures exists i :: 0 <= i < |front| && Name("", front[i]) == k {
      var i :| 0 <= i < |items| && Name("", items[i]) == k;
      assert front[i] == items[i];
    }
    forall i, j | 0 <= i < j < |front| ensures Name("", front[i]) != Name("", front[j]) {
      assert items[i] == front[i] && items[j] == front[j];
    }
  }

  lemma {:induction false} ListRead(items: seq<Json>, m: Records)
    ensures FromList(items) == Ok(m) <==> ReadsList(items, m)
  {
    if items == [] {
      if ReadsList(items, m) {
        assert forall id :: id !in m;
        assert m == map[];
      }
    } else {
      hide FromList, ReadsList;
      var front, last := items[..|items| - 1], items[|items| - 1];
      assert items == front + [last];
      if ReadsList(items, m) {
        ReadsLess(front, last, m);
        ListRead(front, m - {Name("", last)});
        ListBack(front, last, m);
      }
      if FromList(items) == Ok(m) {
        ListReadStep(front, last, m);
        var before := FromList(front).value;
        ListRead(front, before);
        ItemReads("", last, m[IdOf("", last.fields)]);
        ReadsMore(front, last, before, Name("", last), m[Name("", last)]);
      }
    }
  }

  lemma ListReadStep(front: seq<Json>, last: Json, m: Records)
    ensures FromList(front + [last]) == Ok(m) <==>
      && FromList(front).Ok? && last.Obj? && GoodEntry("", last) && IdOf("", last.fields) !in FromList(front).value
      && m == FromList(front).value[IdOf("", last.fields) := Keyed(IdOf("", last.fields), last.fields)]
  {
    assert (front + [last])[..|front|] == front;
  }

  lemma ListBack(front: seq<Json>, last: Json, m: Records)
    requires var id := Name("", last); id in m && Reads(last, id, m[id]) && FromList(front) == Ok(m - {id})
    ensures FromList(front + [last]) == Ok(m)
  {
    var id := Name("", last);
    ItemReads("", last, m[id]);
    ListReadStep(front, last, m);
    assert m == (m - {id})[id := m[id]];
  }

  /** What reading a payload comes to, shape by shape: nothing for null and for metadata alone, one record for
      an object with an identifier of its own, the records behind the wrapper keys, the entries otherwise. */
  ghost predicate ReadsPayload(v: Json, m: Records)
    decreases v
  {
    match v
    case Null => m == map[]
    case Arr(items) => ReadsList(items, m)
    case Obj(o) =>
      if "conclusionId" in o && o["conclusionId"].Str?
      then o["conclusionId"] != Str("") && m == map[o["conclusionId"].s := o]
      else if "conclusions" in o && "entries" in o then
        exists a: Records, b: Records ::
          ReadsPayload(o["conclusions"], a) && ReadsPayload(o["entries"], b) && a.Keys !! b.Keys && m == a + b
      else if "conclusions" in o then ReadsPayload(o["conclusions"], m)
      else if "entries" in o then ReadsPayload(o["entries"], m)
      else if OnlyMetadata(o.Keys) then m == map[]
      else ReadsObject(o, m)
    case _ => false
  }

  predicate OnlyMetadata(ids: set<string>) {
    ids != {} && ids <= {"schemaVersion", "registryType", "type", "lastUpdatedAt", "updatedAt", "updatedBy", "summary"}
  }

  /** The reader takes from a payload what the payload says, and refuses it if it says nothing of the kind. */
  lemma {:induction false} PayloadRead(v: Json, m: Records)
    ensures Normalize(v) == Ok(m) <==> ReadsPayload(v, m)
    decreases v
  {
    match v
    case Arr(items) => ListRead(items, m);
    case Obj(o) =>
      hide ReadsObject, FromObject, OnlyMetadata, MetadataOnly;
      if "conclusionId" in o && o["conclusionId"].Str? {
      } else if "conclusions" in o && "entries" in o {
        forall a ensures Normalize(o["conclusions"]) == Ok(a) <==> ReadsPayload(o["conclusions"], a) {
          PayloadRead(o["conclusions"], a);
        }
        forall b ensures Normalize(o["entries"]) == Ok(b) <==> ReadsPayload(o["entries"], b) {
          PayloadRead(o["entries"], b);
        }
        BothWrappers(o, m);
      } else if "conclusions" in o {
        PayloadRead(o["conclusions"], m);
      } else if "entries" in o {
        PayloadRead(o["entries"], m);
      } else {
        MetadataKeys(o.Keys);
        ObjectRead(o, m);
      }
    case _ =>
  }

  lemma BothWrappers(o: Record, m: Records)
    requires "conclusions" in o && "entries" in o && !Get(o, "conclusionId").Str?
    requires forall a :: Normalize(o["conclusions"]) == Ok(a) <==> ReadsPayload(o["conclusions"], a)
    requires forall b :: Normalize(o["entries"]) == Ok(b) <==> ReadsPayload(o["entries"], b)
    ensures Normalize(Obj(o)) == Ok(m) <==> ReadsPayload(Obj(o), m)
  {
    var c, e := Normalize(o["conclusions"]), Normalize(o["entries"]);
    assert Normalize(Obj(o)) == Combine(c, e);
    hide Normalize;
    if Combine(c, e) == Ok(m) {
      assert ReadsPayload(o["conclusions"], c.value) && ReadsPayload(o["entries"], e.value);
    }
    if ReadsPayload(Obj(o), m) {
      var a: Records, b: Records :|
        ReadsPayload(o["conclusions"], a) && ReadsPayload(o["entries"], b) && a.Keys !! b.Keys && m == a + b;
      assert c == Ok(a) && e == Ok(b);
    }
  }

  lemma MetadataKeys(ids: set<string>)
    ensures MetadataOnly(ids) <==> OnlyMetadata(ids)
  {
    var keys := METADATA_KEYS;
    assert keys[0] == "schemaVersion" && keys[1] == "registryType" && keys[2] == "type" && keys[3] == "lastUpdatedAt"
        && keys[4] == "updatedAt" && keys[5] == "updatedBy" && keys[6] == "summary" && |keys| == 7;
    forall id ensures id in METADATA_KEYS <==> id in {"schemaVersion", "registryType", "type", "lastUpdatedAt",
                                                      "updatedAt", "updatedBy", "summary"} {}
  }

  // ---------- what a call writes to the file ----------

  /** A registry file that can be read at all, and the object in it; no file counts as an empty one. */
  ghost predicate FileHas(file: File, existing: Record) {
    (file == Missing && existing == map[]) || file == Doc(Obj(existing))
  }

  /** The file's object, its table and the reported one, and nothing that stops their merge. */
  ghost predicate CanMerge(file: File, op: Op, existing: Record, m: Records, reported: Records) {
    && FileHas(file, existing) && ReadsPayload(Obj(existing), m) && ReadsPayload(op.conclusions, reported)
    && !Stopped(m, Producer(op.owner, op.at, reported, op.prune))
  }

  lemma CommitUnfolds(file: File, op: Op, draw: Draw)
    ensures Commit(file, op, draw).Ok? <==>
      && op.owner != "" && op.at != "" && LoadRegistry(file).Ok?
      && Normalize(Obj(LoadRegistry(file).value)).Ok? && Normalize(op.conclusions).Ok?
      && MergeRecords(Normalize(Obj(LoadRegistry(file).value)).value,
                      ProducerOf(op, Normalize(op.conclusions).value)).Ok?
  {
    hide Normalize, MergeRecords, Document;
  }

  lemma LoadedMeans(file: File, existing: Record)
    ensures LoadRegistry(file) == Ok(existing) <==> FileHas(file, existing)
  {
  }

  /** A call goes through exactly if the file can be read, owner and time are given, both tables can be read,
      and nothing stops the merge. */
  lemma CallAccepted(file: File, op: Op, draw: Draw)
    ensures Commit(file, op, draw).Ok? <==>
      op.owner != "" && op.at != "" && exists existing, m, reported :: CanMerge(file, op, existing, m, reported)
  {
    hide ReadsPayload, Normalize, MergeRecords, Commit, LoadRegistry, FileHas, Stopped;
    CommitUnfolds(file, op, draw);
    if Commit(file, op, draw).Ok? {
      var existing := LoadRegistry(file).value;
      var m, reported := Normalize(Obj(existing)).value, Normalize(op.conclusions).value;
      LoadedMeans(file, existing);
      PayloadRead(Obj(existing), m);
      PayloadRead(op.conclusions, reported);
      MergeStops(m, ProducerOf(op, reported));
      assert CanMerge(file, op, existing, m, reported);
    }
    if existing, m, reported :| CanMerge(file, op, existing, m, reported) {
      LoadedMeans(file, existing);
      PayloadRead(Obj(existing), m);
      PayloadRead(op.conclusions, reported);
      MergeStops(m, ProducerOf(op, reported));
    }
  }

  /** A status of CLOSED, in any case. */
  ghost predicate IsClosed(rd: Reader, r: Record) {
    Says(rd, r, "status", "", "CLOSED")
  }

  lemma ClosedMeans(rd: Reader, r: Record)
    ensures Closed(rd)(r) <==> IsClosed(rd, r)
  {
    FieldSays(rd, r, "status", "", "CLOSED");
  }

  /** The document of a call: six fields, the kind of registry taken over from the file, the table n as it is,
      and the summary of it. */
  ghost predicate IsDocument(doc: Json, existing: Record, op: Op, n: Records, s: Summary, draw: Draw) {
    && doc.Obj?
    && doc.fields.Keys == {"schemaVersion", "registryType", "lastUpdatedAt", "updatedBy", "conclusions", "summary"}
    && doc.fields["schemaVersion"] == (if "schemaVersion" in existing then existing["schemaVersion"] else Num(1.0))
    && doc.fields["registryType"]
       == (if "registryType" in existing then existing["registryType"] else Str("rl-conclusion-registry"))
    && doc.fields["lastUpdatedAt"] == Str(op.at)
    && doc.fields["updatedBy"] == Str(if op.author != "" then op.author else op.owner)
    && doc.fields["conclusions"].Obj? && doc.fields["conclusions"].fields.Keys == n.Keys
    && (forall id :: id in n ==> doc.fields["conclusions"].fields[id] == Obj(n[id]))
    && doc.fields["summary"] == draw.render(s)
  }

  lemma DocumentFields(existing: Record, op: Op, n: Records, s: Summary, draw: Draw)
    ensures IsDocument(Document(FieldOr(existing, "schemaVersion", Num(1.0)),
                                FieldOr(existing, "registryType", Str("rl-conclusion-registry")),
                                op.at, if op.author == "" then op.owner else op.author, n, draw.render(s)),
                       existing, op, n, s, draw)
  {
  }

  /** What a call that goes through writes: the file's table with the reports merged in, and a summary of it that
      counts the reports that were not there, and those that are closed and were not. */
  lemma CallWrites(file: File, op: Op, draw: Draw)
    returns (existing: Record, m: Records, reported: Records, n: Records, s: Summary)
    requires Commit(file, op, draw).Ok?
    ensures FileHas(file, existing) && ReadsPayload(Obj(existing), m) && ReadsPayload(op.conclusions, reported)
    ensures MergesInto(m, Producer(op.owner, op.at, reported, op.prune), n)
    ensures IsDocument(Commit(file, op, draw).value, existing, op, n, s, draw)
    ensures var added := set id | id in reported && id !in m;
            var closed := set id | id in reported && id in m
                && IsClosed(draw.rd, reported[id]) && !IsClosed(draw.rd, m[id]);
            IsSummaryOf(draw.rd, n, |added|, |closed|, s)
  {
    hide ReadsPayload, Normalize, MergeRecords, MergesInto, IsSummary, IsSummaryOf, SummaryOf, IsDocument;
    existing := LoadRegistry(file).value;
    m, reported := Normalize(Obj(existing)).value, Normalize(op.conclusions).value;
    PayloadRead(Obj(existing), m);
    PayloadRead(op.conclusions, reported);
    n := MergedTable(existing, op).value;
    MergedSelfKeyed(existing, op);
    s := MergedSummary(existing, op, draw.rd);
    var p := ProducerOf(op, reported);
    MergeWrites(m, p);
    DocumentFields(existing, op, n, s, draw);
    CountedMeans(m, p, draw.rd);
    SummaryReads(draw.rd, n, |NewIds(m, p)|, |ClosedIds(m, p, Closed(draw.rd))|, s);
  }

  lemma CountedMeans(m: Records, p: Producer, rd: Reader)
    ensures NewIds(m, p) == set id | id in p.incoming && id !in m
    ensures ClosedIds(m, p, Closed(rd))
         == set id | id in p.incoming && id in m && IsClosed(rd, p.incoming[id]) && !IsClosed(rd, m[id])
  {
    forall id | id in p.incoming && id in m
      ensures Closes(m, p, Closed(rd), id) <==> IsClosed(rd, p.incoming[id]) && !IsClosed(rd, m[id])
    {
      ClosedMeans(rd, p.incoming[id]);
      ClosedMeans(rd, m[id]);
    }
    hide IsClosed, Closed;
  }

  /** A document hides a record that neither wrapper name, if it holds such a name, or if all its names are
      those of registry fields. */
  predicate Hidden(ids: set<string>, id: string) {
    if "conclusions" in ids || "entries" in ids then id != "conclusions" && id != "entries" else OnlyMetadata(ids)
  }

  lemma SurvivorsMean(ids: set<string>, id: string)
    ensures id in Survivors(ids) <==> id in ids && !Hidden(ids, id)
  {
    MetadataKeys(ids);
    if "conclusions" in ids || "entries" in ids {
      assert "conclusions" in ids * WRAPPER_KEYS || "entries" in ids * WRAPPER_KEYS;
    } else {
      NoReservedIds(ids);
    }
  }

  lemma ReportInTable(m: Records, p: Producer, n: Records, id: string)
    requires MergesInto(m, p, n) && id in p.incoming
    ensures var after := Restrict(n, Survivors(n.Keys));
      && (id in after <==> !Hidden(n.Keys, id))
      && (id in after ==> KeepsReport(p.incoming[id], after[id], id, p.owner, p.at))
  {
    hide KeepsReport, Survivors;
    SurvivorsMean(n.Keys, id);
  }

  lemma CommitMergesInto(file: File, op: Op, draw: Draw, reported: Records)
    requires Commit(file, op, draw).Ok? && ReadsPayload(op.conclusions, reported)
    ensures LoadRegistry(file).Ok? && MergedTable(LoadRegistry(file).value, op).Ok?
    ensures Normalize(Obj(LoadRegistry(file).value)).Ok?
    ensures MergesInto(Normalize(Obj(LoadRegistry(file).value)).value, ProducerOf(op, reported),
                       MergedTable(LoadRegistry(file).value, op).value)
  {
    hide ReadsPayload, Normalize, MergeRecords, MergesInto, Document;
    PayloadRead(op.conclusions, reported);
    MergeWrites(Normalize(Obj(LoadRegistry(file).value)).value, ProducerOf(op, reported));
  }

  /** What the next reader finds under a reported identifier: the report, unless the document hides it. */
  lemma ReportIsFound(file: File, op: Op, draw: Draw, reported: Records, id: string)
    requires Commit(file, op, draw).Ok? && ReadsPayload(op.conclusions, reported) && id in reported
    ensures LoadRegistry(file).Ok? && MergedTable(LoadRegistry(file).value, op).Ok?
    ensures var after := Table(Doc(Commit(file, op, draw).value));
      && (id in after <==> !Hidden(MergedTable(LoadRegistry(file).value, op).value.Keys, id))
      && (id in after ==> KeepsReport(reported[id], after[id], id, op.owner, op.at))
  {
    hide Commit, ReadsPayload, Normalize, MergedTable, MergesInto, KeepsReport, Survivors, Restrict, Table, SelfKeyed,
         LoadRegistry, Hidden;
    CommittedTable(file, op, draw);
    CommitMergesInto(file, op, draw, reported);
    ReportInTable(Normalize(Obj(LoadRegistry(file).value)).value, ProducerOf(op, reported),
                  MergedTable(LoadRegistry(file).value, op).value, id);
  }
}
