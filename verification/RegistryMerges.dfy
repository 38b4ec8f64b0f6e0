/** Two merges in a row. The second call reads back what the first one saved, so records that reserved
    identifiers hide are gone before it starts. */
module RegistryMerges {
  import opened Basics
  import opened JsonValues
  import opened Registry

  /** A saved table as the next call finds it. */
  function Reread(n: Records): Records {
    Restrict(n, Survivors(n.Keys))
  }

  /** The table after two calls, in this order. */
  function MergeTwo(m: Records, p: Producer, q: Producer): Result<Records, Refusal> {
    match MergeRecords(m, p)
    case Err(e) => Err(e)
    case Ok(n) => MergeRecords(Reread(n), q)
  }

  /** The identifiers that a call leaves in the document. */
  function KeysAfter(m: Records, p: Producer): set<string> {
    (m.Keys - PrunedIds(m, p)) + p.incoming.Keys
  }

  /** The identifiers that the next call finds. */
  function Readable(m: Records, p: Producer): set<string> {
    Survivors(KeysAfter(m, p))
  }

  lemma ReadableKeys(m: Records, p: Producer)
    requires MergeRecords(m, p).Ok?
    ensures MergeRecords(m, p).value.Keys == KeysAfter(m, p)
  {
    MergedLookup(m, p);
    var n := MergeRecords(m, p).value;
    forall id ensures id in n.Keys <==> id in KeysAfter(m, p) {}
  }

  /** What the next call finds under one identifier. */
  lemma RereadAt(m: Records, p: Producer, id: string)
    requires MergeRecords(m, p).Ok?
    ensures var n := Reread(MergeRecords(m, p).value);
      && (id in n <==> id in Readable(m, p) && (id in p.incoming || (id in m && Kept(m, p, id))))
      && (id in n ==> n[id] == if id in p.incoming then Stamp(p, id, p.incoming[id]) else m[id])
      && (id in n && id in p.incoming ==> OwnerOf(n[id]) == Str(p.owner))
  {
    ReadableKeys(m, p);
    MergedLookup(m, p);
    if id in p.incoming {
      StampFacts(p, id, p.incoming[id]);
    }
  }

  /** No report names another owner. */
  predicate OwnReport(p: Producer) {
    forall id :: id in p.incoming ==> OwnerOf(p.incoming[id]).Str? ==> OwnerOf(p.incoming[id]) == Str(p.owner)
  }

  predicate MayTake(r: Record, owner: string) {
    OwnerOf(r) == Null || OwnerOf(r) == Str(owner)
  }

  lemma AdmissibleMeans(m: Records, p: Producer)
    ensures Admissible(m, p) <==> OwnReport(p) && forall id :: id in p.incoming && id in m ==> MayTake(m[id], p.owner)
  {
  }

  // ---------- two owners ----------

  /** The second of two owners is admitted exactly if nothing readable that it reports is the first one's
      or somebody else's. */
  lemma SecondAdmitted(m: Records, p: Producer, q: Producer)
    requires p.owner != q.owner && MergeRecords(m, p).Ok?
    ensures MergeTwo(m, p, q).Ok? <==>
      && OwnReport(q)
      && (forall id :: id in q.incoming && id in Readable(m, p) ==> id !in p.incoming)
      && (forall id :: id in q.incoming && id in Readable(m, p) && id in m && Kept(m, p, id) ==>
          MayTake(m[id], q.owner))
  {
    var n := Reread(MergeRecords(m, p).value);
    AdmissibleMeans(n, q);
    forall id ensures (id in n <==> id in Readable(m, p) && (id in p.incoming || (id in m && Kept(m, p, id))))
              ensures id in n ==> (MayTake(n[id], q.owner) <==> id !in p.incoming && MayTake(m[id], q.owner))
    {
      RereadAt(m, p, id);
    }
  }

  /** Both orders succeed exactly if each merge is admissible on its own and no record that both report
      can be read back after either of them. */
  lemma BothOrdersSucceed(m: Records, p: Producer, q: Producer)
    requires p.owner != q.owner
    ensures MergeTwo(m, p, q).Ok? && MergeTwo(m, q, p).Ok? <==>
      && Admissible(m, p) && Admissible(m, q)
      && (p.incoming.Keys * q.incoming.Keys) !! Readable(m, p) && (p.incoming.Keys * q.incoming.Keys) !! Readable(m, q)
  {
    AdmissibleMeans(m, p);
    AdmissibleMeans(m, q);
    if Admissible(m, p) && Admissible(m, q) {
      SecondAdmitted(m, p, q);
      SecondAdmitted(m, q, p);
      assert forall id :: id in p.incoming.Keys * q.incoming.Keys <==> id in p.incoming && id in q.incoming;
    }
  }

  /** Every reported record can be read back, none is reported twice, and a record that both leave alone
      can be read back after both or after neither. */
  ghost predicate OrderFree(m: Records, p: Producer, q: Producer) {
    && p.incoming.Keys !! q.incoming.Keys
    && p.incoming.Keys <= Readable(m, p) && q.incoming.Keys <= Readable(m, q)
    && forall id :: id in m && id !in p.incoming && id !in q.incoming && Kept(m, p, id) && Kept(m, q, id) ==>
         (id in Readable(m, p) <==> id in Readable(m, q))
  }

  /** The table after both calls, one identifier at a time. */
  lemma AfterTwo(m: Records, p: Producer, q: Producer, id: string)
    requires p.owner != q.owner && MergeTwo(m, p, q).Ok?
    ensures var n := MergeTwo(m, p, q).value;
      if id in q.incoming then id in n && n[id] == Stamp(q, id, q.incoming[id])
      else if id in p.incoming then (id in n <==> id in Readable(m, p))
           && (id in n ==> n[id] == Stamp(p, id, p.incoming[id]))
      else (id in n <==> id in m && Kept(m, p, id) && Kept(m, q, id) && id in Readable(m, p))
           && (id in n ==> n[id] == m[id])
  {
    RereadAt(m, p, id);
    MergedLookup(Reread(MergeRecords(m, p).value), q);
  }

  lemma DifferentStamps(p: Producer, q: Producer, id: string, r: Record, s: Record)
    requires p.owner != q.owner
    ensures Stamp(p, id, r) != Stamp(q, id, s)
  {
    StampFacts(p, id, r);
    StampFacts(q, id, s);
  }

  /** What order-freeness means for one identifier. */
  ghost predicate FreeAt(m: Records, p: Producer, q: Producer, id: string) {
    if id in p.incoming then id !in q.incoming && id in Readable(m, p)
    else if id in q.incoming then id in Readable(m, q)
    else id in m && Kept(m, p, id) && Kept(m, q, id) ==> (id in Readable(m, p) <==> id in Readable(m, q))
  }

  lemma FreeEverywhere(m: Records, p: Producer, q: Producer)
    ensures OrderFree(m, p, q) <==> forall id :: FreeAt(m, p, q, id)
  {
    if forall id :: FreeAt(m, p, q, id) {
      forall id ensures !(id in p.incoming && id in q.incoming) && (id in p.incoming ==> id in Readable(m, p))
                ensures id in q.incoming ==> id in Readable(m, q)
      {
        assert FreeAt(m, p, q, id);
      }
      forall id | id in m && id !in p.incoming && id !in q.incoming && Kept(m, p, id) && Kept(m, q, id)
        ensures id in Readable(m, p) <==> id in Readable(m, q)
      {
        assert FreeAt(m, p, q, id);
      }
    }
  }

  ghost predicate SameUnder(a: Records, b: Records, id: string) {
    (id in a <==> id in b) && (id in a ==> a[id] == b[id])
  }

  lemma SameEverywhere(a: Records, b: Records)
    ensures a == b <==> forall id :: SameUnder(a, b, id)
  {
    if forall id :: SameUnder(a, b, id) {
      forall id ensures (id in a <==> id in b) && (id in a ==> a[id] == b[id]) {
        assert SameUnder(a, b, id);
      }
      SameRecords(a, b);
    }
  }

  lemma SameAt(m: Records, p: Producer, q: Producer, id: string)
    requires p.owner != q.owner && MergeTwo(m, p, q).Ok? && MergeTwo(m, q, p).Ok?
    ensures SameUnder(MergeTwo(m, p, q).value, MergeTwo(m, q, p).value, id) <==> FreeAt(m, p, q, id)
  {
    AfterTwo(m, p, q, id);
    AfterTwo(m, q, p, id);
    if id in p.incoming && id in q.incoming {
      DifferentStamps(p, q, id, p.incoming[id], q.incoming[id]);
    }
  }

  /** Where both orders succeed, they leave the same table exactly if the reports are order-free. */
  lemma MergesCommute(m: Records, p: Producer, q: Producer)
    requires p.owner != q.owner && MergeTwo(m, p, q).Ok? && MergeTwo(m, q, p).Ok?
    ensures MergeTwo(m, p, q) == MergeTwo(m, q, p) <==> OrderFree(m, p, q)
  {
    var a, b := MergeTwo(m, p, q).value, MergeTwo(m, q, p).value;
    SameEverywhere(a, b);
    FreeEverywhere(m, p, q);
    forall id ensures SameUnder(a, b, id) <==> FreeAt(m, p, q, id) {
      SameAt(m, p, q, id);
    }
  }

  lemma SafeMeansReadable(m: Records, p: Producer)
    requires SafeIds(KeysAfter(m, p))
    ensures Readable(m, p) == KeysAfter(m, p)
  {
    SafeIdsSurvive(KeysAfter(m, p));
  }

  /** As long as neither call leaves reserved identifiers behind, both orders succeed exactly on disjoint
      admissible reports, and then the order does not matter. */
  lemma SafeMergesCommute(m: Records, p: Producer, q: Producer)
    requires p.owner != q.owner && SafeIds(KeysAfter(m, p)) && SafeIds(KeysAfter(m, q))
    ensures MergeTwo(m, p, q).Ok? && MergeTwo(m, q, p).Ok?
       <==> Admissible(m, p) && Admissible(m, q) && p.incoming.Keys !! q.incoming.Keys
    ensures MergeTwo(m, p, q).Ok? && MergeTwo(m, q, p).Ok? ==> MergeTwo(m, p, q) == MergeTwo(m, q, p)
  {
    SafeMeansReadable(m, p);
    SafeMeansReadable(m, q);
    BothOrdersSucceed(m, p, q);
    SharedAreReadable(m, p, q);
    if MergeTwo(m, p, q).Ok? && MergeTwo(m, q, p).Ok? {
      MergesCommute(m, p, q);
    }
  }

  lemma SharedAreReadable(m: Records, p: Producer, q: Producer)
    requires Readable(m, p) == KeysAfter(m, p)
    ensures (p.incoming.Keys * q.incoming.Keys) !! Readable(m, p) <==> p.incoming.Keys !! q.incoming.Keys
  {
    if id :| id in p.incoming.Keys && id in q.incoming.Keys {
      assert id in p.incoming.Keys * q.incoming.Keys && id in Readable(m, p);
    }
  }

  // ---------- one owner twice ----------

  /** A record that the second report leaves alone: it does not mention it and may not prune it. */
  predicate LeftAlone(m: Records, q: Producer, id: string)
    requires id in m
  {
    id !in q.incoming && OwnerOf(m[id]) != Str(q.owner)
  }

  /** The first report claims a record without an owner that the second one leaves alone. */
  predicate ClaimedThenDropped(m: Records, p: Producer, q: Producer) {
    exists id :: id in p.incoming && id in m && LeftAlone(m, q, id) && OwnerOf(m[id]) == Null
  }

  /** The first report makes a record unreadable that the second one leaves alone. */
  predicate HiddenInBetween(m: Records, p: Producer, q: Producer) {
    exists id :: id in m && LeftAlone(m, q, id) && id !in p.incoming && id !in Readable(m, p)
  }

  lemma TwiceAt(m: Records, p: Producer, q: Producer, id: string)
    requires p.owner == q.owner && q.prune && MergeRecords(m, q).Ok? && MergeTwo(m, p, q).Ok?
    ensures var direct, twice := MergeRecords(m, q).value, MergeTwo(m, p, q).value;
      && (id in direct <==> id in q.incoming || (id in m && LeftAlone(m, q, id)))
      && (id in twice <==>
          id in q.incoming || (id in m && LeftAlone(m, q, id) && id !in p.incoming && id in Readable(m, p)))
      && (id in twice ==> id in direct && twice[id] == direct[id])
  {
    RereadAt(m, p, id);
    MergedLookup(m, q);
    MergedLookup(Reread(MergeRecords(m, p).value), q);
  }

  /** A later pruning merge by the same owner is admitted after an earlier one exactly if it reports nothing
      of somebody else's that can still be read. */
  lemma LaterAdmitted(m: Records, p: Producer, q: Producer)
    requires p.owner == q.owner && MergeRecords(m, p).Ok?
    ensures MergeTwo(m, p, q).Ok? <==>
      OwnReport(q) && forall id :: id in q.incoming && id in m && id in Readable(m, p) ==> MayTake(m[id], q.owner)
    ensures MergeRecords(m, q).Ok? ==> MergeTwo(m, p, q).Ok?
  {
    var n := Reread(MergeRecords(m, p).value);
    AdmissibleMeans(n, q);
    AdmissibleMeans(m, p);
    AdmissibleMeans(m, q);
    forall id ensures id in n <==> id in Readable(m, p) && (id in p.incoming || (id in m && Kept(m, p, id)))
              ensures id in n ==> (MayTake(n[id], q.owner) <==> id in p.incoming || MayTake(m[id], q.owner))
    {
      RereadAt(m, p, id);
    }
  }

  /** It makes the earlier one invisible exactly unless that one claimed, or made unreadable, a record that
      the later one leaves alone. */
  lemma LaterMergeAbsorbs(m: Records, p: Producer, q: Producer)
    requires p.owner == q.owner && q.prune && MergeRecords(m, p).Ok? && MergeRecords(m, q).Ok?
    ensures MergeTwo(m, p, q).Ok?
    ensures MergeTwo(m, p, q) == MergeRecords(m, q) <==> !ClaimedThenDropped(m, p, q) && !HiddenInBetween(m, p, q)
  {
    LaterAdmitted(m, p, q);
    var direct, twice := MergeRecords(m, q).value, MergeTwo(m, p, q).value;
    AdmissibleMeans(m, p);
    forall id ensures (id in direct <==> id in q.incoming || (id in m && LeftAlone(m, q, id)))
              ensures id in twice <==>
                id in q.incoming || (id in m && LeftAlone(m, q, id) && id !in p.incoming && id in Readable(m, p))
              ensures id in twice ==> id in direct && twice[id] == direct[id]
    {
      TwiceAt(m, p, q, id);
    }
    if !ClaimedThenDropped(m, p, q) && !HiddenInBetween(m, p, q) {
      SameRecords(direct, twice);
    }
  }

  /** With every record owned and no reserved identifier left behind, absorption is unconditional. */
  lemma SafeLaterMergeAbsorbs(m: Records, p: Producer, q: Producer)
    requires p.owner == q.owner && q.prune && MergeRecords(m, p).Ok?
    requires AllOwned(m) && SafeIds(KeysAfter(m, p))
    ensures MergeTwo(m, p, q) == MergeRecords(m, q)
  {
    SafeMeansReadable(m, p);
    LaterAdmitted(m, p, q);
    AdmissibleMeans(m, p);
    AdmissibleMeans(m, q);
    StaysReadable(m, p, q);
    if MergeRecords(m, q).Ok? {
      LaterMergeAbsorbs(m, p, q);
    }
  }

  /** What the producer may not take is not pruned, so it stays in the document. */
  lemma StaysReadable(m: Records, p: Producer, q: Producer)
    requires p.owner == q.owner && Readable(m, p) == KeysAfter(m, p)
    ensures forall id :: id in m && !MayTake(m[id], q.owner) ==> id in Readable(m, p)
  {
  }

  // ---------- inputs that fail ----------

  function Plain(id: string): Record {
    map["conclusionId" := Str(id)]
  }

  function Owned(id: string, owner: string): Record {
    Plain(id)["ownerCron" := Str(owner)]
  }

  /** A producer that reports one plain record. */
  function Reports(owner: string, id: string, prune: bool): Producer {
    Producer(owner, "t", map[id := Plain(id)], prune)
  }

  /** One order can be refused while the other goes through: pruning frees an identifier. */
  lemma OneOrderRefused()
    ensures var m: Records := map["X" := Owned("X", "a")];
            var p, q := Producer("a", "t", map[], true), Reports("b", "X", true);
            MergeTwo(m, p, q).Ok? && MergeTwo(m, q, p).Err?
  {
    var m: Records := map["X" := Owned("X", "a")];
    var p, q := Producer("a", "t", map[], true), Reports("b", "X", true);
    assert !Kept(m, p, "X");
    assert MergeRecords(m, p).value == map[];
    assert !Admissible(m, q) by { assert "X" in q.incoming; }
  }

  lemma OnlyEntries(ids: set<string>)
    requires "entries" in ids && "conclusions" !in ids
    ensures Survivors(ids) == {"entries"}
  {
    assert ids * WRAPPER_KEYS == {"entries"};
  }

  lemma OnlyConclusions(ids: set<string>)
    requires "conclusions" in ids && "entries" !in ids
    ensures Survivors(ids) == {"conclusions"}
  {
    assert ids * WRAPPER_KEYS == {"conclusions"};
  }

  lemma ShortIdsAreFree(id: string)
    requires |id| == 1
    ensures id !in METADATA_KEYS && id !in WRAPPER_KEYS
  {
  }

  /** What a report without pruning leaves, by its identifier. */
  lemma KeysAfterReport(m: Records, owner: string, id: string)
    ensures KeysAfter(m, Reports(owner, id, false)) == m.Keys + {id}
  {
    assert PrunedIds(m, Reports(owner, id, false)) == {};
  }

  /** Reporting an ordinary record hides nothing ordinary. */
  lemma OrdinaryReport(m: Records, owner: string, id: string)
    requires id !in METADATA_KEYS && id !in WRAPPER_KEYS && m.Keys !! WRAPPER_KEYS
    ensures Readable(m, Reports(owner, id, false)) == m.Keys + {id}
  {
    KeysAfterReport(m, owner, id);
    NoReservedIds(m.Keys + {id});
  }

  /** Reporting a record called "entries" hides everything else. */
  lemma EntriesReport(m: Records, owner: string)
    requires "conclusions" !in m
    ensures Readable(m, Reports(owner, "entries", false)) == {"entries"}
  {
    KeysAfterReport(m, owner, "entries");
    OnlyEntries(m.Keys + {"entries"});
  }

  /** Both orders succeed and leave different tables: a record called "entries" destroys another owner's
      record if it is not the last one written. */
  lemma OrderMatters()
    ensures var m: Records := map["Y" := Owned("Y", "c")];
            var p, q := Reports("a", "X", false), Reports("b", "entries", false);
      && MergeTwo(m, p, q).Ok? && MergeTwo(m, q, p).Ok?
      && "Y" in MergeTwo(m, p, q).value && "Y" !in MergeTwo(m, q, p).value
  {
    var m: Records := map["Y" := Owned("Y", "c")];
    ShortIdsAreFree("X");
    ShortIdsAreFree("Y");
    EntriesCostOthers(m, "X", "Y");
  }

  lemma EntriesCostOthers(m: Records, x: string, y: string)
    requires m.Keys == {y} && x != y && x !in METADATA_KEYS && x !in WRAPPER_KEYS && y !in WRAPPER_KEYS
    ensures var p, q := Reports("a", x, false), Reports("b", "entries", false);
      && MergeTwo(m, p, q).Ok? && MergeTwo(m, q, p).Ok?
      && y in MergeTwo(m, p, q).value && y !in MergeTwo(m, q, p).value
  {
    var p, q := Reports("a", x, false), Reports("b", "entries", false);
    OrdinaryReport(m, "a", x);
    EntriesReport(m, "b");
    AdmissibleMeans(m, p);
    AdmissibleMeans(m, q);
    assert p.incoming.Keys * q.incoming.Keys == {};
    BothOrdersSucceed(m, p, q);
    OneFateTwoOrders(m, p, q, y);
  }

  /** A record that only the first report leaves readable survives only if that report comes first. */
  lemma OneFateTwoOrders(m: Records, p: Producer, q: Producer, id: string)
    requires p.owner != q.owner && MergeTwo(m, p, q).Ok? && MergeTwo(m, q, p).Ok?
    requires id in m && !p.prune && !q.prune && id !in p.incoming && id !in q.incoming
    requires id in Readable(m, p) && id !in Readable(m, q)
    ensures id in MergeTwo(m, p, q).value && id !in MergeTwo(m, q, p).value
  {
    AfterTwo(m, p, q, id);
    AfterTwo(m, q, p, id);
  }

  lemma BothHideTheRest(m: Records, p: Producer, q: Producer, z: string)
    requires m == map[] && p.owner != q.owner && z !in WRAPPER_KEYS
    requires p.incoming.Keys == {z, "entries"} && q.incoming.Keys == {z, "conclusions"} && OwnReport(p) && OwnReport(q)
    ensures MergeTwo(m, p, q).Ok? && MergeTwo(m, q, p).Ok? && MergeTwo(m, p, q) != MergeTwo(m, q, p)
  {
    AdmissibleMeans(m, p);
    AdmissibleMeans(m, q);
    OnlyEntries(KeysAfter(m, p));
    OnlyConclusions(KeysAfter(m, q));
    assert p.incoming.Keys * q.incoming.Keys == {z};
    hide MergeRecords, MergeTwo, Survivors, KeysAfter;
    BothOrdersSucceed(m, p, q);
    MergesCommute(m, p, q);
  }

  /** Both orders can succeed although both report the same record: it is hidden in between. */
  lemma SharedRecordInBothOrders(z: string)
    requires z !in WRAPPER_KEYS
    ensures var m: Records := map[];
            var p := Producer("a", "t", map[z := Plain(z), "entries" := Plain("entries")], false);
            var q := Producer("b", "t", map[z := Plain(z), "conclusions" := Plain("conclusions")], false);
      && MergeTwo(m, p, q).Ok? && MergeTwo(m, q, p).Ok? && MergeTwo(m, p, q) != MergeTwo(m, q, p)
  {
    hide MergeRecords, MergeTwo, Survivors;
    var p := Producer("a", "t", map[z := Plain(z), "entries" := Plain("entries")], false);
    var q := Producer("b", "t", map[z := Plain(z), "conclusions" := Plain("conclusions")], false);
    BothHideTheRest(map[], p, q, z);
  }

  /** A claimed legacy record: after the second report it is gone, which without the first it would not be. */
  lemma ClaimIsNotAbsorbed()
    ensures var m: Records := map["X" := Plain("X")];
            var p, q := Reports("a", "X", true), Producer("a", "t", map[], true);
      && ClaimedThenDropped(m, p, q) && MergeRecords(m, q).Ok? && MergeTwo(m, p, q).Ok?
      && "X" in MergeRecords(m, q).value && "X" !in MergeTwo(m, p, q).value
  {
    var m: Records := map["X" := Plain("X")];
    var p, q := Reports("a", "X", true), Producer("a", "t", map[], true);
    AdmissibleMeans(m, p);
    LaterMergeAbsorbs(m, p, q);
    TwiceAt(m, p, q, "X");
    assert "X" in p.incoming && LeftAlone(m, q, "X");
  }

  lemma EntriesCostOwned(m: Records, p: Producer, q: Producer, y: string)
    requires m.Keys == {y} && OwnerOf(m[y]).Str? && OwnerOf(m[y]) != Str(p.owner) && y != "entries"
    requires p == Reports(p.owner, "entries", false) && q.owner == p.owner && q.prune && y !in q.incoming
             && OwnReport(q)
    requires y != "conclusions"
    ensures AllOwned(m) && HiddenInBetween(m, p, q) && MergeRecords(m, q).Ok? && MergeTwo(m, p, q).Ok?
    ensures y in MergeRecords(m, q).value && y !in MergeTwo(m, p, q).value
  {
    EntriesReport(m, p.owner);
    AdmissibleMeans(m, p);
    AdmissibleMeans(m, q);
    assert LeftAlone(m, q, y);
    hide Readable;
    HiddenIsGone(m, p, q, y);
  }

  /** A record of another owner that was hidden in between is gone, although every record was owned. */
  lemma HidingIsNotAbsorbed()
    ensures var m: Records := map["Y" := Owned("Y", "c")];
            var p, q := Reports("a", "entries", false), Reports("a", "X", true);
      && AllOwned(m) && HiddenInBetween(m, p, q) && MergeRecords(m, q).Ok? && MergeTwo(m, p, q).Ok?
      && "Y" in MergeRecords(m, q).value && "Y" !in MergeTwo(m, p, q).value
  {
    hide MergeRecords, MergeTwo, Survivors, HiddenInBetween, AllOwned;
    EntriesCostOwned(map["Y" := Owned("Y", "c")], Reports("a", "entries", false), Reports("a", "X", true), "Y");
  }

  lemma HiddenIsGone(m: Records, p: Producer, q: Producer, id: string)
    requires p.owner == q.owner && q.prune && MergeRecords(m, p).Ok? && MergeRecords(m, q).Ok?
    requires id in m && LeftAlone(m, q, id) && id !in p.incoming && id !in Readable(m, p)
    ensures MergeTwo(m, p, q).Ok? && id in MergeRecords(m, q).value && id !in MergeTwo(m, p, q).value
  {
    LaterAdmitted(m, p, q);
    TwiceAt(m, p, q, id);
  }
}
