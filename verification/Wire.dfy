/**
 The wire format of torrent rows: full rows, and partial patches that carry only the
 fields that changed. The server computes patches, the client applies them field by field.
 */
module Wire {
  datatype Status = Stopped | Downloading | Seeding | Paused | Hashing | Error

  /** The keys of a row's JSON object, besides its hash. */
  datatype Field =
    | Name | Size | Completed | DownRate | UpRate
    | UpTotal | Ratio | State | Label | Directory
    | PeersConnected | PeersTotal | SeedsConnected | SeedsTotal | Tracker
    | Added | Message | SizeChunks | CompletedChunks | ChunkSize

  datatype Value = Text(text: string) | Num(num: int) | Stat(stat: Status)

  /** A row as it goes over the wire. */
  datatype Row = Row(
    hash: string,
    name: string,
    size: int,
    completed: int,
    downRate: int,
    upRate: int,
    upTotal: int,
    ratio: int,
    status: Status,
    labelText: string,
    directory: string,
    peersConnected: int,
    peersTotal: int,
    seedsConnected: int,
    seedsTotal: int,
    tracker: string,
    added: int,
    message: string,
    sizeChunks: int,
    completedChunks: int,
    chunkSize: int)

  /** The server's torrent: the wire fields and one counter that never leaves it. */
  datatype Torrent = Torrent(wire: Row, downTotal: int)

  /** A JSON object with a hash and some of the fields. */
  datatype Patch = Patch(hash: string, fields: map<Field, Value>)

  function Get(r: Row, f: Field): Value {
    match f
    case Name => Text(r.name)
    case Size => Num(r.size)
    case Completed => Num(r.completed)
    case DownRate => Num(r.downRate)
    case UpRate => Num(r.upRate)
    case UpTotal => Num(r.upTotal)
    case Ratio => Num(r.ratio)
    case State => Stat(r.status)
    case Label => Text(r.labelText)
    case Directory => Text(r.directory)
    case PeersConnected => Num(r.peersConnected)
    case PeersTotal => Num(r.peersTotal)
    case SeedsConnected => Num(r.seedsConnected)
    case SeedsTotal => Num(r.seedsTotal)
    case Tracker => Text(r.tracker)
    case Added => Num(r.added)
    case Message => Text(r.message)
    case SizeChunks => Num(r.sizeChunks)
    case CompletedChunks => Num(r.completedChunks)
    case ChunkSize => Num(r.chunkSize)
  }

  predicate Typed(f: Field, v: Value) {
    match f
    case Name | Label | Directory | Tracker | Message => v.Text?
    case State => v.Stat?
    case _ => v.Num?
  }

  /** Every present field has the type its key calls for. */
  ghost predicate WellTyped(p: Patch) {
    forall f :: f in p.fields ==> Typed(f, p.fields[f])
  }

  function FieldOf(p: Patch, f: Field, kept: Value): Value {
    if f in p.fields then p.fields[f] else kept
  }

  function TextOf(p: Patch, f: Field, kept: string): string
    requires WellTyped(p) && Typed(f, Text(kept))
  {
    FieldOf(p, f, Text(kept)).text
  }

  function NumOf(p: Patch, f: Field, kept: int): int
    requires WellTyped(p) && Typed(f, Num(kept))
  {
    FieldOf(p, f, Num(kept)).num
  }

  /** A row after a patch: present fields replaced, the rest kept. */
  function Patched(r: Row, p: Patch): Row
    requires WellTyped(p)
  {
    Row(r.hash,
        TextOf(p, Name, r.name),
        NumOf(p, Size, r.size),
        NumOf(p, Completed, r.completed),
        NumOf(p, DownRate, r.downRate),
        NumOf(p, UpRate, r.upRate),
        NumOf(p, UpTotal, r.upTotal),
        NumOf(p, Ratio, r.ratio),
        FieldOf(p, State, Stat(r.status)).stat,
        TextOf(p, Label, r.labelText),
        TextOf(p, Directory, r.directory),
        NumOf(p, PeersConnected, r.peersConnected),
        NumOf(p, PeersTotal, r.peersTotal),
        NumOf(p, SeedsConnected, r.seedsConnected),
        NumOf(p, SeedsTotal, r.seedsTotal),
        TextOf(p, Tracker, r.tracker),
        NumOf(p, Added, r.added),
        TextOf(p, Message, r.message),
        NumOf(p, SizeChunks, r.sizeChunks),
        NumOf(p, CompletedChunks, r.completedChunks),
        NumOf(p, ChunkSize, r.chunkSize))
  }

  function NewRow(h: string): Row {
    Row(h, "", 0, 0, 0, 0, 0, 0, Stopped, "", "", 0, 0, 0, 0, "", 0, "", 0, 0, 0)
  }

  lemma {:induction false} PatchedField(r: Row, p: Patch, f: Field)
    requires WellTyped(p)
    ensures Get(Patched(r, p), f) == FieldOf(p, f, Get(r, f))
  {
    match f
    case Name =>
    case Size =>
    case Completed =>
    case DownRate =>
    case UpRate =>
    case UpTotal =>
    case Ratio =>
    case State =>
    case Label =>
    case Directory =>
    case PeersConnected =>
    case PeersTotal =>
    case SeedsConnected =>
    case SeedsTotal =>
    case Tracker =>
    case Added =>
    case Message =>
    case SizeChunks =>
    case CompletedChunks =>
    case ChunkSize =>
  }

  lemma {:induction false} SameFront(a: Row, b: Row)
    requires forall f :: Get(a, f) == Get(b, f)
    ensures a.name == b.name
    ensures a.size == b.size
    ensures a.completed == b.completed
    ensures a.downRate == b.downRate
    ensures a.upRate == b.upRate
    ensures a.upTotal == b.upTotal
    ensures a.ratio == b.ratio
    ensures a.status == b.status
    ensures a.labelText == b.labelText
    ensures a.directory == b.directory
  {
    assert Get(a, Name) == Get(b, Name);
    assert Get(a, Size) == Get(b, Size);
    assert Get(a, Completed) == Get(b, Completed);
    assert Get(a, DownRate) == Get(b, DownRate);
    assert Get(a, UpRate) == Get(b, UpRate);
    assert Get(a, UpTotal) == Get(b, UpTotal);
    assert Get(a, Ratio) == Get(b, Ratio);
    assert Get(a, State) == Get(b, State);
    assert Get(a, Label) == Get(b, Label);
    assert Get(a, Directory) == Get(b, Directory);
  }

  lemma {:induction false} SameBack(a: Row, b: Row)
    requires forall f :: Get(a, f) == Get(b, f)
    ensures a.peersConnected == b.peersConnected
    ensures a.peersTotal == b.peersTotal
    ensures a.seedsConnected == b.seedsConnected
    ensures a.seedsTotal == b.seedsTotal
    ensures a.tracker == b.tracker
    ensures a.added == b.added
    ensures a.message == b.message
    ensures a.sizeChunks == b.sizeChunks
    ensures a.completedChunks == b.completedChunks
    ensures a.chunkSize == b.chunkSize
  {
    assert Get(a, PeersConnected) == Get(b, PeersConnected);
    assert Get(a, PeersTotal) == Get(b, PeersTotal);
    assert Get(a, SeedsConnected) == Get(b, SeedsConnected);
    assert Get(a, SeedsTotal) == Get(b, SeedsTotal);
    assert Get(a, Tracker) == Get(b, Tracker);
    assert Get(a, Added) == Get(b, Added);
    assert Get(a, Message) == Get(b, Message);
    assert Get(a, SizeChunks) == Get(b, SizeChunks);
    assert Get(a, CompletedChunks) == Get(b, CompletedChunks);
    assert Get(a, ChunkSize) == Get(b, ChunkSize);
  }

  /** Rows with the same hash and the same fields are the same row. */
  lemma {:induction false} SameFields(a: Row, b: Row)
    requires a.hash == b.hash && forall f :: Get(a, f) == Get(b, f)
    ensures a == b
  {
    hide Get;
    SameFront(a, b);
    SameBack(a, b);
  }

  const ALL_FIELDS: set<Field> := {
    Name, Size, Completed, DownRate, UpRate,
    UpTotal, Ratio, State, Label, Directory,
    PeersConnected, PeersTotal, SeedsConnected, SeedsTotal, Tracker,
    Added, Message, SizeChunks, CompletedChunks, ChunkSize}

  lemma {:induction false} AllFieldsListed(f: Field)
    ensures f in ALL_FIELDS
  {
    match f
    case Name =>
    case Size =>
    case Completed =>
    case DownRate =>
    case UpRate =>
    case UpTotal =>
    case Ratio =>
    case State =>
    case Label =>
    case Directory =>
    case PeersConnected =>
    case PeersTotal =>
    case SeedsConnected =>
    case SeedsTotal =>
    case Tracker =>
    case Added =>
    case Message =>
    case SizeChunks =>
    case CompletedChunks =>
    case ChunkSize =>
  }

  /** A full row as a patch. */
  function Full(r: Row): (p: Patch)
    ensures WellTyped(p)
  {
    Patch(r.hash, map f | f in ALL_FIELDS :: Get(r, f))
  }

  // ---- DiffFrom -----------------------------------------------------------

  /** Exactly the fields that differ, with the new values. */
  ghost predicate IsDiff(fields: map<Field, Value>, t: Row, prev: Row) {
    forall f :: (f in fields <==> Get(t, f) != Get(prev, f)) && (f in fields ==> fields[f] == Get(t, f))
  }

  /** The patch restricted to the fields compared so far. */
  ghost predicate DiffOn(m: map<Field, Value>, t: Row, prev: Row, done: set<Field>) {
    forall f :: (f in m <==> f in done && Get(t, f) != Get(prev, f)) && (f in m ==> m[f] == Get(t, f))
  }

  /** One comparison: a changed field goes into the map. */
  function Note(m: map<Field, Value>, t: Row, prev: Row, f: Field, ghost done: set<Field>): (m': map<Field, Value>)
    requires DiffOn(m, t, prev, done)
    ensures DiffOn(m', t, prev, done + {f})
  {
    hide Get;
    if Get(t, f) != Get(prev, f) then m[f := Get(t, f)] else m
  }

  /** Identity, size and progress. */
  function DiffTransfer(m0: map<Field, Value>, t: Row, prev: Row, ghost done: set<Field>): (r: map<Field, Value>)
    requires DiffOn(m0, t, prev, done)
    ensures DiffOn(r, t, prev, done + {Name} + {Size} + {Completed} + {DownRate})
  {
    hide DiffOn, Note, Get;
    var m1 := Note(m0, t, prev, Name, done);
    var m2 := Note(m1, t, prev, Size, done + {Name});
    var m3 := Note(m2, t, prev, Completed, done + {Name} + {Size});
    var m4 := Note(m3, t, prev, DownRate, done + {Name} + {Size} + {Completed});
    m4
  }

  /** Upload side. */
  function DiffUpload(m4: map<Field, Value>, t: Row, prev: Row, ghost done: set<Field>): (r: map<Field, Value>)
    requires DiffOn(m4, t, prev, done)
    ensures DiffOn(r, t, prev, done + {UpRate} + {UpTotal} + {Ratio})
  {
    hide DiffOn, Note, Get;
    var m5 := Note(m4, t, prev, UpRate, done);
    var m6 := Note(m5, t, prev, UpTotal, done + {UpRate});
    var m7 := Note(m6, t, prev, Ratio, done + {UpRate} + {UpTotal});
    m7
  }

  /** State and place. */
  function DiffState(m7: map<Field, Value>, t: Row, prev: Row, ghost done: set<Field>): (r: map<Field, Value>)
    requires DiffOn(m7, t, prev, done)
    ensures DiffOn(r, t, prev, done + {State} + {Label} + {Directory})
  {
    hide DiffOn, Note, Get;
    var m8 := Note(m7, t, prev, State, done);
    var m9 := Note(m8, t, prev, Label, done + {State});
    var m10 := Note(m9, t, prev, Directory, done + {State} + {Label});
    m10
  }

  /** The swarm. */
  function DiffPeers(m10: map<Field, Value>, t: Row, prev: Row, ghost done: set<Field>): (r: map<Field, Value>)
    requires DiffOn(m10, t, prev, done)
    ensures DiffOn(r, t, prev, done + {PeersConnected} + {PeersTotal} + {SeedsConnected} + {SeedsTotal})
  {
    hide DiffOn, Note, Get;
    var m11 := Note(m10, t, prev, PeersConnected, done);
    var m12 := Note(m11, t, prev, PeersTotal, done + {PeersConnected});
    var m13 := Note(m12, t, prev, SeedsConnected, done + {PeersConnected} + {PeersTotal});
    var m14 := Note(m13, t, prev, SeedsTotal, done + {PeersConnected} + {PeersTotal} + {SeedsConnected});
    m14
  }

  /** Tracker, age and message. */
  function DiffNotes(m14: map<Field, Value>, t: Row, prev: Row, ghost done: set<Field>): (r: map<Field, Value>)
    requires DiffOn(m14, t, prev, done)
    ensures DiffOn(r, t, prev, done + {Tracker} + {Added} + {Message})
  {
    hide DiffOn, Note, Get;
    var m15 := Note(m14, t, prev, Tracker, done);
    var m16 := Note(m15, t, prev, Added, done + {Tracker});
    var m17 := Note(m16, t, prev, Message, done + {Tracker} + {Added});
    m17
  }

  /** Chunk counts. */
  function DiffChunks(m17: map<Field, Value>, t: Row, prev: Row, ghost done: set<Field>): (r: map<Field, Value>)
    requires DiffOn(m17, t, prev, done)
    ensures DiffOn(r, t, prev, done + {SizeChunks} + {CompletedChunks} + {ChunkSize})
  {
    hide DiffOn, Note, Get;
    var m18 := Note(m17, t, prev, SizeChunks, done);
    var m19 := Note(m18, t, prev, CompletedChunks, done + {SizeChunks});
    var m20 := Note(m19, t, prev, ChunkSize, done + {SizeChunks} + {CompletedChunks});
    m20
  }

  method DiffFrom(t: Torrent, prev: Torrent) returns (changed: bool, p: Patch)
    ensures IsDiff(p.fields, t.wire, prev.wire)
    ensures p.hash == t.wire.hash && changed == (p.fields != map[])
  {
    hide DiffOn, IsDiff, DiffTransfer, DiffUpload, DiffState, DiffPeers, DiffNotes, DiffChunks;
    var m: map<Field, Value> := map[];
    ghost var done: set<Field> := {};
    NothingCompared(t.wire, prev.wire);
    m := DiffTransfer(m, t.wire, prev.wire, done);
    done := done + {Name} + {Size} + {Completed} + {DownRate};
    m := DiffUpload(m, t.wire, prev.wire, done);
    done := done + {UpRate} + {UpTotal} + {Ratio};
    m := DiffState(m, t.wire, prev.wire, done);
    done := done + {State} + {Label} + {Directory};
    m := DiffPeers(m, t.wire, prev.wire, done);
    done := done + {PeersConnected} + {PeersTotal} + {SeedsConnected} + {SeedsTotal};
    m := DiffNotes(m, t.wire, prev.wire, done);
    done := done + {Tracker} + {Added} + {Message};
    m := DiffChunks(m, t.wire, prev.wire, done);
    done := done + {SizeChunks} + {CompletedChunks} + {ChunkSize};
    AllCompared(m, t.wire, prev.wire, done);
    changed := m != map[];
    p := Patch(t.wire.hash, m);
  }

  lemma {:induction false} NothingCompared(t: Row, prev: Row)
    ensures DiffOn(map[], t, prev, {})
  {
  }

  lemma {:induction false} AllCompared(m: map<Field, Value>, t: Row, prev: Row, done: set<Field>)
    requires DiffOn(m, t, prev, done)
    requires done >= ALL_FIELDS
    ensures IsDiff(m, t, prev)
  {
    hide Get;
    forall f ensures f in done {
      AllFieldsListed(f);
    }
  }

  // ---- the client's row ---------------------------------------------------

  class TorrentRow {
    const hash: string
    var name: string
    var size: int
    var completed: int
    var downRate: int
    var upRate: int
    var upTotal: int
    var ratio: int
    var status: Status
    var labelText: string
    var directory: string
    var peersConnected: int
    var peersTotal: int
    var seedsConnected: int
    var seedsTotal: int
    var tracker: string
    var added: int
    var message: string
    var sizeChunks: int
    var completedChunks: int
    var chunkSize: int

    function View(): Row
      reads this
    {
      Row(hash, name, size, completed, downRate, upRate, upTotal, ratio, status, labelText, directory,
          peersConnected, peersTotal, seedsConnected, seedsTotal, tracker, added, message, sizeChunks,
          completedChunks, chunkSize)
    }

    constructor (hash: string)
      ensures this.hash == hash && View() == NewRow(hash)
    {
      this.hash := hash;
      name := "";
      size := 0;
      completed := 0;
      downRate := 0;
      upRate := 0;
      upTotal := 0;
      ratio := 0;
      status := Stopped;
      labelText := "";
      directory := "";
      peersConnected := 0;
      peersTotal := 0;
      seedsConnected := 0;
      seedsTotal := 0;
      tracker := "";
      added := 0;
      message := "";
      sizeChunks := 0;
      completedChunks := 0;
      chunkSize := 0;
    }

    /** Assign every present field; the fields are independent of each other. */
    method Apply(p: Patch)
      requires WellTyped(p)
      modifies this
      ensures View() == Patched(old(View()), p)
    {
      hide WellTyped;
      ApplyNames(p);
      ApplyTexts(p);
      ApplyTransfer(p);
      ApplyUpload(p);
      ApplyPeers(p);
      ApplyChunks(p);
      ApplyRest(p);
    }

    method ApplyNames(p: Patch)
      requires WellTyped(p)
      modifies this
      ensures View() == old(View()).(
        name := FieldOf(p, Name, Text(old(name))).text,
        labelText := FieldOf(p, Label, Text(old(labelText))).text,
        directory := FieldOf(p, Directory, Text(old(directory))).text)
    {
      if Name in p.fields { name := p.fields[Name].text; }
      if Label in p.fields { labelText := p.fields[Label].text; }
      if Directory in p.fields { directory := p.fields[Directory].text; }
    }

    method ApplyTexts(p: Patch)
      requires WellTyped(p)
      modifies this
      ensures View() == old(View()).(
        tracker := FieldOf(p, Tracker, Text(old(tracker))).text,
        message := FieldOf(p, Message, Text(old(message))).text,
        status := FieldOf(p, State, Stat(old(status))).stat)
    {
      if Tracker in p.fields { tracker := p.fields[Tracker].text; }
      if Message in p.fields { message := p.fields[Message].text; }
      if State in p.fields { status := p.fields[State].stat; }
    }

    method ApplyTransfer(p: Patch)
      requires WellTyped(p)
      modifies this
      ensures View() == old(View()).(
        size := FieldOf(p, Size, Num(old(size))).num,
        completed := FieldOf(p, Completed, Num(old(completed))).num,
        downRate := FieldOf(p, DownRate, Num(old(downRate))).num)
    {
      if Size in p.fields { size := p.fields[Size].num; }
      if Completed in p.fields { completed := p.fields[Completed].num; }
      if DownRate in p.fields { downRate := p.fields[DownRate].num; }
    }

    method ApplyUpload(p: Patch)
      requires WellTyped(p)
      modifies this
      ensures View() == old(View()).(
        upRate := FieldOf(p, UpRate, Num(old(upRate))).num,
        upTotal := FieldOf(p, UpTotal, Num(old(upTotal))).num,
        ratio := FieldOf(p, Ratio, Num(old(ratio))).num)
    {
      if UpRate in p.fields { upRate := p.fields[UpRate].num; }
      if UpTotal in p.fields { upTotal := p.fields[UpTotal].num; }
      if Ratio in p.fields { ratio := p.fields[Ratio].num; }
    }

    method ApplyPeers(p: Patch)
      requires WellTyped(p)
      modifies this
      ensures View() == old(View()).(
        peersConnected := FieldOf(p, PeersConnected, Num(old(peersConnected))).num,
        peersTotal := FieldOf(p, PeersTotal, Num(old(peersTotal))).num,
        seedsConnected := FieldOf(p, SeedsConnected, Num(old(seedsConnected))).num)
    {
      if PeersConnected in p.fields { peersConnected := p.fields[PeersConnected].num; }
      if PeersTotal in p.fields { peersTotal := p.fields[PeersTotal].num; }
      if SeedsConnected in p.fields { seedsConnected := p.fields[SeedsConnected].num; }
    }

    method ApplyChunks(p: Patch)
      requires WellTyped(p)
      modifies this
      ensures View() == old(View()).(
        sizeChunks := FieldOf(p, SizeChunks, Num(old(sizeChunks))).num,
        completedChunks := FieldOf(p, CompletedChunks, Num(old(completedChunks))).num,
        chunkSize := FieldOf(p, ChunkSize, Num(old(chunkSize))).num)
    {
      if SizeChunks in p.fields { sizeChunks := p.fields[SizeChunks].num; }
      if CompletedChunks in p.fields { completedChunks := p.fields[CompletedChunks].num; }
      if ChunkSize in p.fields { chunkSize := p.fields[ChunkSize].num; }
    }

    method ApplyRest(p: Patch)
      requires WellTyped(p)
      modifies this
      ensures View() == old(View()).(
        seedsTotal := FieldOf(p, SeedsTotal, Num(old(seedsTotal))).num,
        added := FieldOf(p, Added, Num(old(added))).num)
    {
      if SeedsTotal in p.fields { seedsTotal := p.fields[SeedsTotal].num; }
      if Added in p.fields { added := p.fields[Added].num; }
    }
  }
}
