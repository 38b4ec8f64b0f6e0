/** The registry file: one exclusive lock, an atomic replace, and any number of producers. */
module RegistryStore {
  import opened Basics
  import opened JsonValues
  import opened Registry
  import opened RegistryMerges
  import opened RegistryViews

  /** What a reader finds at the registry path. */
  datatype File = Missing | Corrupt | Doc(json: Json)

  /** One producer call: who, when, on whose behalf, and what it reports. */
  datatype Op = Op(owner: string, at: string, author: string, conclusions: Json, prune: bool)

  /** How a call reads values and writes the summary into the document. */
  datatype Draw = Draw(rd: Reader, render: Summary -> Json)

  function LoadRegistry(file: File): Result<Record, Refusal> {
    match file
    case Missing => Ok(map[])
    case Corrupt => Err(Refused)
    case Doc(json) => if json.Obj? then Ok(json.fields) else Err(Refused)
  }

  function ProducerOf(op: Op, incoming: Records): Producer {
    Producer(op.owner, op.at, incoming, op.prune)
  }

  /** The record table a producer call would leave behind. */
  function MergedTable(existing: Record, op: Op): Result<Records, Refusal> {
    if op.owner == "" || op.at == "" then Err(Refused) else
    match (Normalize(Obj(existing)), Normalize(op.conclusions))
    case (Ok(records), Ok(incoming)) => MergeRecords(records, ProducerOf(op, incoming))
    case _ => Err(Refused)
  }

  function FieldOr(existing: Record, key: string, default: Json): Json {
    if key in existing then existing[key] else default
  }

  function Closed(rd: Reader): Record -> bool {
    (r: Record) => UpperField(rd, r, "status", "") == "CLOSED"
  }

  lemma MergedSelfKeyed(existing: Record, op: Op)
    requires MergedTable(existing, op).Ok?
    ensures SelfKeyed(MergedTable(existing, op).value)
  {
    NormalizeSelfKeyed(Obj(existing));
    NormalizeSelfKeyed(op.conclusions);
    MergeInvariants(Normalize(Obj(existing)).value, ProducerOf(op, Normalize(op.conclusions).value));
  }

  /** The summary of the merged table, with what the call added and closed. */
  ghost function MergedSummary(existing: Record, op: Op, rd: Reader): Summary
    requires MergedTable(existing, op).Ok?
  {
    MergedSelfKeyed(existing, op);
    var before, p := Normalize(Obj(existing)).value, ProducerOf(op, Normalize(op.conclusions).value);
    SummaryOf(rd, MergedTable(existing, op).value, |NewIds(before, p)|, |ClosedIds(before, p, Closed(rd))|)
  }

  ghost function MergePayload(existing: Record, op: Op, draw: Draw): Result<Json, Refusal> {
    match MergedTable(existing, op)
    case Err(e) => Err(e)
    case Ok(merged) =>
      Ok(Document(FieldOr(existing, "schemaVersion", Num(1.0)),
                  FieldOr(existing, "registryType", Str("rl-conclusion-registry")),
                  op.at, if op.author == "" then op.owner else op.author,
                  merged, draw.render(MergedSummary(existing, op, draw.rd))))
  }

  /** What a call does to the file it finds: the new document, or a refusal. */
  ghost function Commit(file: File, op: Op, draw: Draw): Result<Json, Refusal> {
    match LoadRegistry(file)
    case Err(e) => Err(e)
    case Ok(existing) => MergePayload(existing, op, draw)
  }

  // ---------- the sequential program ----------

  /** Merging as the script runs it, with the summary it computes written into the document. */
  method MergeRegistryPayload(existing: Record, op: Op, draw: Draw) returns (r: Result<Json, Refusal>)
    ensures r == MergePayload(existing, op, draw)
  {
    if op.owner == "" || op.at == "" {
      return Err(Refused);
    }
    var records := NormalizeConclusions(Obj(existing));
    var incoming := NormalizeConclusions(op.conclusions);
    if records.Err? || incoming.Err? {
      return Err(Refused);
    }
    var p := ProducerOf(op, incoming.value);
    var merged, added, closed := MergeIncoming(records.value, p, Closed(draw.rd));
    if merged.Err? {
      return Err(Refused);
    }
    MergedSelfKeyed(existing, op);
    var summary := SummarizeConclusions(draw.rd, merged.value, added, closed);
    SummaryIsDetermined(draw.rd, merged.value, added, closed, summary, MergedSummary(existing, op, draw.rd));
    r := Ok(Document(FieldOr(existing, "schemaVersion", Num(1.0)),
                     FieldOr(existing, "registryType", Str("rl-conclusion-registry")),
                     op.at, if op.author == "" then op.owner else op.author, merged.value, draw.render(summary)));
  }

  /** The file at the registry path, its lock, and the temporary file of a pending replace. */
  class RegistryFile {
    var file: File
    var locked: bool
    var temp: Option<Json>

    constructor (initial: File)
      ensures file == initial && !locked && temp == None
    {
      file, locked, temp := initial, false, None;
    }

    method Lock()
      requires !locked
      modifies `locked
      ensures locked
    {
      locked := true;
    }

    method Unlock()
      requires locked
      modifies `locked
      ensures !locked
    {
      locked := false;
    }

    /** Writes beside the registry, then renames over it. */
    method WriteJsonAtomic(payload: Json)
      requires locked
      modifies `file, `temp
      ensures file == Doc(payload) && temp == None
    {
      temp := Some(payload);
      file := Doc(temp.value);
      temp := None;
    }

    method MergeRegistryFile(op: Op, draw: Draw) returns (r: Result<Json, Refusal>)
      requires !locked
      modifies this
      ensures r == Commit(old(file), op, draw)
      ensures file == if r.Ok? then Doc(r.value) else old(file)
      ensures !locked && (temp == old(temp) || temp == None)
    {
      Lock();
      var loaded := LoadRegistry(file);
      if loaded.Ok? {
        r := MergeRegistryPayload(loaded.value, op, draw);
        if r.Ok? {
          WriteJsonAtomic(r.value);
        }
      } else {
        r := Err(Refused);
      }
      Unlock();
    }
  }

  // ---------- tables reached by commits ----------

  /** The files commits produce from nothing: readable, with every record owned and under its own id. */
  predicate Sound(file: File) {
    && LoadRegistry(file).Ok?
    && Normalize(Obj(LoadRegistry(file).value)).Ok?
    && SelfKeyed(Table(file)) && AllOwned(Table(file))
  }

  /** The record table a reader of the file obtains. */
  function Table(file: File): Records {
    match LoadRegistry(file)
    case Err(_) => map[]
    case Ok(existing) => match Normalize(Obj(existing)) case Ok(m) => m case Err(_) => map[]
  }

  lemma ReadBack(existing: Record, op: Op, draw: Draw)
    requires MergePayload(existing, op, draw).Ok?
    ensures MergePayload(existing, op, draw).value.Obj?
    ensures var merged := MergedTable(existing, op).value;
            Normalize(MergePayload(existing, op, draw).value) == Ok(Restrict(merged, Survivors(merged.Keys)))
  {
    MergedSelfKeyed(existing, op);
    SaveLoadRoundTrip(FieldOr(existing, "schemaVersion", Num(1.0)),
                      FieldOr(existing, "registryType", Str("rl-conclusion-registry")),
                      op.at, if op.author == "" then op.owner else op.author, MergedTable(existing, op).value,
                      draw.render(MergedSummary(existing, op, draw.rd)));
  }

  lemma TableOfDoc(json: Json)
    requires json.Obj?
    ensures LoadRegistry(Doc(json)).Ok? && Obj(LoadRegistry(Doc(json)).value) == json
    ensures Table(Doc(json)) == match Normalize(json) case Ok(m) => m case Err(_) => map[]
  {
  }

  /** A commit's table is read back up to the identifiers it hides. */
  lemma CommittedTable(file: File, op: Op, draw: Draw)
    requires Commit(file, op, draw).Ok?
    ensures LoadRegistry(file).Ok? && MergedTable(LoadRegistry(file).value, op).Ok?
    ensures var merged, after := MergedTable(LoadRegistry(file).value, op).value, Doc(Commit(file, op, draw).value);
            && SelfKeyed(merged)
            && LoadRegistry(after).Ok? && Normalize(Obj(LoadRegistry(after).value)).Ok?
            && Table(after) == Restrict(merged, Survivors(merged.Keys))
  {
    var existing := LoadRegistry(file).value;
    MergedSelfKeyed(existing, op);
    ReadBack(existing, op, draw);
    TableOfDoc(MergePayload(existing, op, draw).value);
  }

  /** A commit merges the call's report into the table that a reader finds. */
  lemma CommitMerges(file: File, op: Op, draw: Draw) returns (p: Producer)
    requires Sound(file) && Commit(file, op, draw).Ok?
    ensures p.owner == op.owner && SelfKeyed(Table(file)) && AllOwned(Table(file)) && SelfKeyed(p.incoming)
    ensures LoadRegistry(file).Ok? && MergedTable(LoadRegistry(file).value, op) == MergeRecords(Table(file), p)
  {
    hide MergeRecords, Survivors, SelfKeyed, AllOwned;
    p := ProducerOf(op, Normalize(op.conclusions).value);
    NormalizeSelfKeyed(op.conclusions);
  }

  lemma CommitKeepsSound(file: File, op: Op, draw: Draw)
    requires Sound(file) && Commit(file, op, draw).Ok?
    ensures Sound(Doc(Commit(file, op, draw).value))
  {
    hide Commit, Normalize, MergedTable, MergeRecords, Survivors;
    var p := CommitMerges(file, op, draw);
    CommittedTable(file, op, draw);
    MergeInvariants(Table(file), p);
  }

  /** Two calls in a row are the composition of two merges with the re-read between them. */
  lemma TwoCalls(existing: Record, first: Op, second: Op, draw: Draw)
    requires MergePayload(existing, first, draw).Ok?
    requires second.owner != "" && second.at != "" && Normalize(second.conclusions).Ok?
    ensures MergePayload(existing, first, draw).value.Obj?
    ensures MergedTable(MergePayload(existing, first, draw).value.fields, second)
         == MergeTwo(Normalize(Obj(existing)).value, ProducerOf(first, Normalize(first.conclusions).value),
                     ProducerOf(second, Normalize(second.conclusions).value))
  {
    ReadBack(existing, first, draw);
  }

  /** What a commit by somebody else does to a record: it is unchanged or gone, and gone exactly if the
      identifiers in the new document hide it. */
  lemma CommitKeepsForeign(file: File, op: Op, draw: Draw, id: string)
    requires Sound(file) && Commit(file, op, draw).Ok?
    requires id in Table(file) && OwnerOf(Table(file)[id]) != Str(op.owner)
    ensures var after := Table(Doc(Commit(file, op, draw).value));
      && (id in after <==> id in Survivors(MergedTable(LoadRegistry(file).value, op).value.Keys))
      && (id in after ==> after[id] == Table(file)[id])
  {
    hide Sound, Table, Commit, MergedTable, Survivors;
    var p := CommitMerges(file, op, draw);
    CommittedTable(file, op, draw);
    OthersUntouched(Table(file), p);
  }

  /** And it never creates a record for somebody else. */
  lemma CommitMakesOwnRecords(file: File, op: Op, draw: Draw, id: string)
    requires Sound(file) && Commit(file, op, draw).Ok?
    ensures var after := Table(Doc(Commit(file, op, draw).value));
      id in after && OwnerOf(after[id]) != Str(op.owner) ==> id in Table(file) && after[id] == Table(file)[id]
  {
    hide Sound, Table, Commit, MergedTable, Survivors;
    var p := CommitMerges(file, op, draw);
    CommittedTable(file, op, draw);
    OthersUntouched(Table(file), p);
  }

  lemma NoEntries(o: Record)
    requires o == map[]
    ensures FromObject(o) == Ok(map[])
  {
    SameRecords(FromObject(o).value, map[]);
  }

  lemma NoRecords(o: Record)
    requires o == map[]
    ensures Normalize(Obj(o)) == Ok(map[])
  {
    NoEntries(o);
    assert "conclusionId" !in o && "conclusions" !in o && "entries" !in o;
    NotOnlyMetadata(o.Keys);
    PlainObject(o);
  }

  lemma NotOnlyMetadata(ids: set<string>)
    requires ids == {}
    ensures !MetadataOnly(ids)
  {
  }

  lemma PlainObject(o: Record)
    requires "conclusionId" !in o && "conclusions" !in o && "entries" !in o && !MetadataOnly(o.Keys)
    ensures Normalize(Obj(o)) == FromObject(o)
  {
  }

  lemma NothingIsSound()
    ensures Sound(Missing)
  {
    NoRecords(map[]);
  }

  // ---------- a record that others destroy ----------

  /** A call that reports one record. */
  function ReportOp(owner: string, id: string): Op {
    Op(owner, "t", "", Obj(Plain(id)), true)
  }

  lemma ReportNormalized(owner: string, id: string)
    requires id != ""
    ensures Normalize(ReportOp(owner, id).conclusions) == Ok(map[id := Plain(id)])
  {
  }

  /** Any owner may report a new record, and finds it in the file. */
  lemma NewReportStays(file: File, owner: string, id: string, draw: Draw)
    requires Sound(file) && owner != "" && id != "" && id !in Table(file)
    ensures Commit(file, ReportOp(owner, id), draw).Ok?
    ensures var p := Reports(owner, id, true);
            var after := Table(Doc(Commit(file, ReportOp(owner, id), draw).value));
      && MergeRecords(Table(file), p).Ok? && after == Reread(MergeRecords(Table(file), p).value)
  {
    hide Normalize, Survivors, Restrict, AllOwned, SelfKeyed;
    ReportNormalized(owner, id);
    AdmissibleMeans(Table(file), Reports(owner, id, true));
    CommittedTable(file, ReportOp(owner, id), draw);
  }

  lemma EntriesRemain(table: Records, owner: string, id: string)
    requires "conclusions" !in table && id != "entries" && MergeRecords(table, Reports(owner, "entries", true)).Ok?
    ensures id !in Reread(MergeRecords(table, Reports(owner, "entries", true)).value)
  {
    hide MergeRecords, Survivors, Kept, Restrict, PrunedIds;
    RereadAt(table, Reports(owner, "entries", true), id);
    OnlyEntries(KeysAfter(table, Reports(owner, "entries", true)));
  }

  /** Reporting a record called "entries" destroys every other record of the file. */
  lemma EntriesDestroy(file: File, owner: string, id: string, draw: Draw)
    requires Sound(file) && owner != "" && "entries" !in Table(file) && "conclusions" !in Table(file) && id != "entries"
    ensures Commit(file, ReportOp(owner, "entries"), draw).Ok?
    ensures id !in Table(Doc(Commit(file, ReportOp(owner, "entries"), draw).value))
  {
    hide Sound, Table, Commit, MergeRecords, Reread, Reports, ReportOp;
    NewReportStays(file, owner, "entries", draw);
    EntriesRemain(Table(file), owner, id);
  }

  /** The first report of an ordinary record is found in the file. */
  lemma FirstCommit(owner: string, id: string, draw: Draw)
    requires owner != "" && |id| == 1
    ensures Commit(Missing, ReportOp(owner, id), draw).Ok?
    ensures var file := Doc(Commit(Missing, ReportOp(owner, id), draw).value);
      Sound(file) && Table(file).Keys == {id} && OwnerOf(Table(file)[id]) == Str(owner)
  {
    NothingIsSound();
    NoRecords(map[]);
    assert Table(Missing) == map[];
    NewReportStays(Missing, owner, id, draw);
    CommitKeepsSound(Missing, ReportOp(owner, id), draw);
    FirstReport(owner, id);
  }

  /** An owner's record is in the file after its own commit and gone after somebody else's: for any two
      owners and any identifier of one letter. */
  lemma OthersCanDestroy(owner: string, other: string, id: string, draw: Draw)
    requires owner != "" && other != "" && owner != other && |id| == 1
    ensures Commit(Missing, ReportOp(owner, id), draw).Ok?
    ensures var first := Doc(Commit(Missing, ReportOp(owner, id), draw).value);
      && Commit(first, ReportOp(other, "entries"), draw).Ok?
      && id in Table(first) && OwnerOf(Table(first)[id]) == Str(owner)
      && id !in Table(Doc(Commit(first, ReportOp(other, "entries"), draw).value))
  {
    FirstCommit(owner, id, draw);
    var first := Doc(Commit(Missing, ReportOp(owner, id), draw).value);
    OnlyShortId(Table(first), id);
    EntriesDestroy(first, other, id, draw);
  }

  lemma OnlyShortId(table: Records, id: string)
    requires table.Keys == {id} && |id| == 1
    ensures "entries" !in table && "conclusions" !in table && id != "entries"
  {
    assert forall k :: k in table ==> k in table.Keys;
  }

  /** The first report of an ordinary record can be read back. */
  lemma FirstReport(owner: string, id: string)
    requires |id| == 1
    ensures MergeRecords(map[], Reports(owner, id, true)).Ok?
    ensures var n := Reread(MergeRecords(map[], Reports(owner, id, true)).value);
      n.Keys == {id} && OwnerOf(n[id]) == Str(owner)
  {
    var p := Reports(owner, id, true);
    AdmissibleMeans(map[], p);
    ShortIdsAreFree(id);
    assert KeysAfter(map[], p) == {id};
    NoReservedIds(KeysAfter(map[], p));
    forall k ensures k in Reread(MergeRecords(map[], p).value) <==> k == id {
      RereadAt(map[], p, k);
    }
    RereadAt(map[], p, id);
  }
}
