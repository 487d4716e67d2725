/** A watched directory: what its looks queue, and what somebody who reads the records by inotify(7)
    learns from them (src/slipstream_inotify.c:213-222 and 295-353). */
module DirectoryWatch {
  import opened InotifyQueue
  import opened DirectoryDiff

  // ---- records -----------------------------------------------------------

  const IN_ISDIR := 0x4000_0000

  function KindBit(k: Kind): U32 {
    match k
    case Modify => 0x2
    case Attrib => 0x4
    case MovedFrom => 0x40
    case MovedTo => 0x80
    case Create => 0x100
    case Delete => 0x200
  }

  function Wire(wd: I32, e: Event): Record {
    Record(wd, KindBit(e.kind) + (if e.isDir then IN_ISDIR else 0), e.cookie, Named(e.name))
  }

  /** Only what the watch asked for is queued. */
  function EmitEvent(q: Queue, wd: I32, asked: set<Kind>, e: Event): Queue {
    if e.kind in asked then Emit(q, Wire(wd, e)) else q
  }

  function EmitEvents(q: Queue, wd: I32, asked: set<Kind>, es: seq<Event>): Queue {
    if es == [] then q else EmitEvent(EmitEvents(q, wd, asked, es[..|es| - 1]), wd, asked, es[|es| - 1])
  }

  function Wires(wd: I32, es: seq<Event>): (r: seq<Record>)
    ensures |r| == |es|
    ensures forall i | 0 <= i < |es| :: r[i] == Wire(wd, es[i])
  {
    seq(|es|, i requires 0 <= i < |es| => Wire(wd, es[i]))
  }

  /** What the watch asked for, in order. */
  function Wanted(es: seq<Event>, asked: set<Kind>): seq<Event> {
    if es == [] then []
    else Wanted(es[..|es| - 1], asked) + (if es[|es| - 1].kind in asked then [es[|es| - 1]] else [])
  }

  lemma WiresSnoc(wd: I32, es: seq<Event>, e: Event)
    ensures Wires(wd, es + [e]) == Wires(wd, es) + [Wire(wd, e)]
  {
  }

  /** A queue with room: the records of what was asked for are queued one by one, in order, and
      nothing else. */
  lemma {:induction false} WantedQueued(q: Queue, wd: I32, asked: set<Kind>, es: seq<Event>)
    requires Bytes(q.records + Wires(wd, Wanted(es, asked))) <= QUEUE_MAX
    ensures EmitEvents(q, wd, asked, es).records == q.records + Wires(wd, Wanted(es, asked))
  {
    if es == [] {
      assert q.records + Wires(wd, []) == q.records;
    } else {
      var front, last := es[..|es| - 1], es[|es| - 1];
      var ws := Wanted(front, asked);
      if last.kind in asked {
        WiresSnoc(wd, ws, last);
        assert q.records + Wires(wd, ws + [last]) == (q.records + Wires(wd, ws)) + [Wire(wd, last)];
        BytesSnoc(q.records + Wires(wd, ws), Wire(wd, last));
      } else {
        assert ws + [] == ws;
      }
      WantedQueued(q, wd, asked, front);
    }
  }

  lemma {:induction false} AllWanted(es: seq<Event>, asked: set<Kind>)
    requires forall k: Kind :: k in asked
    ensures Wanted(es, asked) == es
  {
    if es != [] { AllWanted(es[..|es| - 1], asked); }
  }

  /** A watch that asked for everything: every record of the look. */
  lemma AllQueued(q: Queue, wd: I32, asked: set<Kind>, es: seq<Event>)
    requires asked == {Modify, Attrib, MovedFrom, MovedTo, Create, Delete}
    requires Bytes(q.records + Wires(wd, es)) <= QUEUE_MAX
    ensures EmitEvents(q, wd, asked, es).records == q.records + Wires(wd, es)
  {
    forall k: Kind ensures k in asked {
      match k
      case Modify =>
      case Attrib =>
      case MovedFrom =>
      case MovedTo =>
      case Create =>
      case Delete =>
    }
    AllWanted(es, asked);
    WantedQueued(q, wd, asked, es);
  }

  // ---- the bits ----------------------------------------------------------

  /** IN_CREATE 0x100, IN_DELETE 0x200, IN_MOVED_FROM 0x40, IN_MOVED_TO 0x80, IN_MODIFY 0x2, IN_ATTRIB 0x4;
      what is above is IN_ISDIR. */
  function Bits(r: Record): nat { r.mask % 0x4000_0000 }

  predicate DirBit(r: Record) { r.mask / 0x4000_0000 == 1 }

  /** Everything a record says of its event: the watch, what happened, the cookie, the name, and whether
      it is a directory. */
  lemma WireSays(wd: I32, e: Event)
    ensures var r := Wire(wd, e);
      && r.wd == wd && r.cookie == e.cookie && r.name == Named(e.name) && DirBit(r) == e.isDir
      && Bits(r) == match e.kind
                    case Create => 0x100
                    case Delete => 0x200
                    case MovedFrom => 0x40
                    case MovedTo => 0x80
                    case Modify => 0x2
                    case Attrib => 0x4
  {
  }

  /** Of what the watch did not ask for nothing is queued, whatever room there is. */
  ghost predicate Unasked(rs: seq<Record>, asked: set<Kind>) {
    forall i | 0 <= i < |rs| ::
      && (Bits(rs[i]) == 0x100 ==> Create in asked) && (Bits(rs[i]) == 0x200 ==> Delete in asked)
      && (Bits(rs[i]) == 0x40 ==> MovedFrom in asked) && (Bits(rs[i]) == 0x80 ==> MovedTo in asked)
      && (Bits(rs[i]) == 0x2 ==> Modify in asked) && (Bits(rs[i]) == 0x4 ==> Attrib in asked)
  }

  lemma {:induction false} NothingUnasked(q: Queue, wd: I32, asked: set<Kind>, es: seq<Event>)
    ensures var u := EmitEvents(q, wd, asked, es);
      q.records <= u.records && Unasked(u.records[|q.records|..], asked)
  {
    if es == [] {
      assert q.records[|q.records|..] == [];
    } else {
      var front, last := es[..|es| - 1], es[|es| - 1];
      NothingUnasked(q, wd, asked, front);
      WireSays(wd, last);
      var p, u := EmitEvents(q, wd, asked, front), EmitEvents(q, wd, asked, es);
      assert u.records == p.records || u.records == p.records + [OVERFLOW]
          || (last.kind in asked && u.records == p.records + [Wire(wd, last)]);
      assert u.records != p.records ==>
        u.records[|q.records|..] == p.records[|q.records|..] + [u.records[|p.records|]];
    }
  }

  // ---- reading by the manual ---------------------------------------------

  /** Somebody who knows which names there are and follows the records: what is deleted or moved away
      must be there, what comes must not be, and a name that was moved away arrives with the very next
      record, under the same cookie. */
  datatype Reader = Lost | Sees(names: set<Text>, moving: Moving)

  datatype Moving = NoMove | MoveOf(cookie: U32)

  function TextOf(name: Name): Text {
    if name.Named? then name.text else []
  }

  function ReadOne(r: Reader, rec: Record): Reader {
    var n := TextOf(rec.name);
    if r.Lost? || rec.name.NoName? then Lost
    else if r.moving.MoveOf? then
      if Bits(rec) == 0x80 && rec.cookie == r.moving.cookie && n !in r.names then Sees(r.names + {n}, NoMove) else Lost
    else if Bits(rec) == 0x100 then if n in r.names then Lost else Sees(r.names + {n}, NoMove)
    else if n !in r.names then Lost
    else if Bits(rec) == 0x200 then Sees(r.names - {n}, NoMove)
    else if Bits(rec) == 0x40 then Sees(r.names - {n}, MoveOf(rec.cookie))
    else if Bits(rec) == 0x2 || Bits(rec) == 0x4 then r
    else Lost
  }

  function ReadAll(r: Reader, rs: seq<Record>): Reader {
    if rs == [] then r else ReadOne(ReadAll(r, rs[..|rs| - 1]), rs[|rs| - 1])
  }

  /** The reader's side of a replay. */
  function Reading(r: Replay): Reader {
    match r
    case Broken => Lost
    case At(files, carried) => Sees(files.Keys, if carried.Carrying? then MoveOf(carried.cookie) else NoMove)
  }

  lemma ReadsOne(r: Replay, wd: I32, e: Event)
    requires Apply(r, e).At?
    ensures ReadOne(Reading(r), Wire(wd, e)) == Reading(Apply(r, e))
  {
    WireSays(wd, e);
    var s, n := Apply(r, e), e.name;
    match e.kind
    case Create => assert s.files.Keys == r.files.Keys + {n};
    case MovedTo => assert s.files.Keys == r.files.Keys + {n};
    case Delete => assert s.files.Keys == r.files.Keys - {n};
    case MovedFrom => assert s.files.Keys == r.files.Keys - {n};
    case Modify =>
    case Attrib =>
  }

  lemma {:induction false} ReadsAll(r: Replay, wd: I32, es: seq<Event>)
    requires ApplyAll(r, es).At?
    ensures ReadAll(Reading(r), Wires(wd, es)) == Reading(ApplyAll(r, es))
  {
    if es != [] {
      var front, last := es[..|es| - 1], es[|es| - 1];
      ReadsAll(r, wd, front);
      ReadsOne(ApplyAll(r, front), wd, last);
      assert es == front + [last];
      WiresSnoc(wd, front, last);
      assert (Wires(wd, front) + [Wire(wd, last)])[..|front|] == Wires(wd, front);
    }
  }

  function NamesOf(s: seq<Entry>): set<Text> {
    set i | 0 <= i < |s| :: s[i].name
  }

  lemma {:induction false} NamesAre(s: seq<Entry>)
    ensures MapOf(s).Keys == NamesOf(s)
  {
    if s != [] {
      NamesAre(s[1..]);
      assert NamesOf(s) == NamesOf(s[1..]) + {s[0].name};
    }
  }

  /** Read by the manual, the records of a look turn the old names into the new ones. */
  lemma RecordsReplay(had: seq<Entry>, now: seq<Entry>, cookie: U32, wd: I32)
    requires DistinctNames(had) && DistinctNames(now)
    ensures ReadAll(Sees(NamesOf(had), NoMove), Wires(wd, Compare(had, now, cookie).events))
         == Sees(NamesOf(now), NoMove)
  {
    CompareReplays(had, now, cookie);
    ReadsAll(At(MapOf(had), Nothing), wd, Compare(had, now, cookie).events);
    NamesAre(had);
    NamesAre(now);
  }

  ghost predicate Names(s: seq<Entry>) {
    forall i | 0 <= i < |s| :: IsString(s[i].name) && |s[i].name| <= NAME_MAX
  }

  /** The records of these events are whole records, and their bytes read back as they are. */
  lemma WiresDecode(wd: I32, es: seq<Event>, had: seq<Entry>, now: seq<Entry>)
    requires Names(had) && Names(now) && AllTrue(es, had, now)
    ensures AllSound(Wires(wd, es)) && DecodeAll(EncodeAll(Wires(wd, es))) == Wires(wd, es)
  {
    forall i | 0 <= i < |es| ensures Sound(Wires(wd, es)[i]) {
      assert True(es[i], had, now);
      NamesFit(Wire(wd, es[i]));
    }
    QueueRoundTrip(Wires(wd, es));
  }

  /** Nothing of the look gets lost: the watch asked for everything and the queue has room. */
  ghost predicate NoneLost(q: Queue, wd: I32, asked: set<Kind>, had: seq<Entry>, now: seq<Entry>, es: seq<Event>) {
    && DistinctNames(had) && DistinctNames(now)
    && asked == {Modify, Attrib, MovedFrom, MovedTo, Create, Delete}
    && Bytes(q.records + Wires(wd, es)) <= QUEUE_MAX
  }

  /** What a look adds to a queue with room, for a watch that asked for everything, read from its bytes by
      the manual: the old names become the new ones. */
  lemma LookReads(q: Queue, wd: I32, asked: set<Kind>, had: seq<Entry>, now: seq<Entry>, cookie: U32)
    requires Names(had) && Names(now) && NoneLost(q, wd, asked, had, now, Compare(had, now, cookie).events)
    ensures var u := EmitEvents(q, wd, asked, Compare(had, now, cookie).events);
      && q.records <= u.records && AllSound(u.records[|q.records|..])
      && ReadAll(Sees(NamesOf(had), NoMove), DecodeAll(EncodeAll(u.records[|q.records|..])))
         == Sees(NamesOf(now), NoMove)
  {
    var es := Compare(had, now, cookie).events;
    AllQueued(q, wd, asked, es);
    assert (q.records + Wires(wd, es))[|q.records|..] == Wires(wd, es);
    CompareTrue(had, now, cookie);
    WiresDecode(wd, es, had, now);
    RecordsReplay(had, now, cookie, wd);
  }

  lemma EmitOne(q: Queue, wd: I32, asked: set<Kind>, es: seq<Event>, e: Event)
    ensures EmitEvents(q, wd, asked, es + [e]) == EmitEvent(EmitEvents(q, wd, asked, es), wd, asked, e)
  {
    assert (es + [e])[..|es|] == es;
  }

  // ---- the code ----------------------------------------------------------

  /** A watched directory. */
  class Watch {
    const wd: I32
    var asked: set<Kind>
    var kids: seq<Entry>

    constructor (wd: I32, asked: set<Kind>, kids: seq<Entry>)
      ensures this.wd == wd && this.asked == asked && this.kids == kids
    {
      this.wd, this.asked, this.kids := wd, asked, kids;
    }

    method EmitMasked(q: Instance, e: Event)
      requires q.Valid() && IsString(e.name) && |e.name| <= NAME_MAX
      modifies q, q.queue
      ensures q.Valid() && q.State() == EmitEvent(old(q.State()), wd, asked, e)
      ensures q.queue == old(q.queue) || fresh(q.queue)
    {
      if e.kind in asked { q.EmitRecord(Wire(wd, e)); }
    }

    /** One more event, and what is reported so far. */
    method Say(q: Instance, e: Event, ghost was: Queue, ghost es: seq<Event>)
      requires q.Valid() && IsString(e.name) && |e.name| <= NAME_MAX
      requires q.State() == EmitEvents(was, wd, asked, es)
      modifies q, q.queue
      ensures q.Valid() && q.State() == EmitEvents(was, wd, asked, es + [e])
      ensures q.queue == old(q.queue) || fresh(q.queue)
    {
      EmitOne(was, wd, asked, es, e);
      EmitMasked(q, e);
    }

    method KidByName(name: Text) returns (i: nat)
      ensures i == ByName(kids, name)
    {
      i := 0;
      while i < |kids|
        invariant i <= |kids| && forall j | 0 <= j < i :: kids[j].name != name
      {
        if kids[i].name == name { break; }
        i := i + 1;
      }
      FirstIs(kids, name, i);
    }

    /** Two operations, one after the other. */
    method SayTwo(q: Instance, e: Event, f: Event, ghost was: Queue, ghost es: seq<Event>)
      requires q.Valid() && IsString(e.name) && |e.name| <= NAME_MAX && IsString(f.name) && |f.name| <= NAME_MAX
      requires q.State() == EmitEvents(was, wd, asked, es)
      modifies q, q.queue
      ensures q.Valid() && q.State() == EmitEvents(was, wd, asked, es + [e, f])
      ensures q.queue == old(q.queue) || fresh(q.queue)
    {
      Both(es, e, f);
      Say(q, e, was, es);
      Say(q, f, was, es + [e]);
    }

    /** The name stayed: what happened to it. */
    method SayChanges(q: Instance, had: Entry, now: Entry, ghost was: Queue, ghost es: seq<Event>)
      requires q.Valid() && had.name == now.name && IsString(now.name) && |now.name| <= NAME_MAX
      requires q.State() == EmitEvents(was, wd, asked, es)
      modifies q, q.queue
      ensures q.Valid() && q.State() == EmitEvents(was, wd, asked, es + Changes(had, now))
      ensures q.queue == old(q.queue) || fresh(q.queue)
    {
      if had.ino != now.ino {
        SayTwo(q, Of(Delete, 0, had), Of(Create, 0, now), was, es);
      } else if had.mtimeSec != now.mtimeSec || had.mtimeNsec != now.mtimeNsec || had.size != now.size {
        Say(q, Of(Modify, 0, now), was, es);
      } else if had.mode != now.mode {
        Say(q, Of(Attrib, 0, now), was, es);
      } else {
        assert es + Changes(had, now) == es;
      }
    }

    method FindLanding(seenNew: array<bool>, now: seq<Entry>, ino: nat) returns (k: nat)
      requires seenNew.Length == |now|
      ensures k == Landing(seenNew[..], now, ino, 0)
    {
      k := 0;
      while k < |now| && (seenNew[k] || now[k].ino != ino)
        invariant k <= |now| && Landing(seenNew[..], now, ino, 0) == Landing(seenNew[..], now, ino, k)
        decreases |now| - k
      {
        k := k + 1;
      }
    }

    /** Pass 1 for one entry of the new listing. */
    method SayStayed(q: Instance, now: seq<Entry>, seenOld: array<bool>, seenNew: array<bool>, k: nat,
                     ghost was: Queue, ghost l: Look)
      requires q.Valid() && Names(now) && k < |now|
      requires seenOld != seenNew && Fits(l, kids, now)
      requires seenOld[..] == l.seenOld && seenNew[..] == l.seenNew
      requires q.State() == EmitEvents(was, wd, asked, l.events)
      modifies q, q.queue, seenOld, seenNew
      ensures var t := Stayed(l, kids, now, k);
        && seenOld[..] == t.seenOld && seenNew[..] == t.seenNew
        && q.Valid() && q.State() == EmitEvents(was, wd, asked, t.events)
      ensures q.queue == old(q.queue) || fresh(q.queue)
    {
      var i := KidByName(now[k].name);
      if i < |kids| {
        SayChanges(q, kids[i], now[k], was, l.events);
        seenOld[i] := true;
        seenNew[k] := true;
      }
    }

    /** The flags are the look's, and the queue holds what it has reported. */
    ghost predicate Said(q: Instance, now: seq<Entry>, seenOld: array<bool>, seenNew: array<bool>, was: Queue, l: Look)
      reads this, q, q.queue, seenOld, seenNew
    {
      && Fits(l, kids, now) && seenOld[..] == l.seenOld && seenNew[..] == l.seenNew
      && q.Valid() && q.State() == EmitEvents(was, wd, asked, l.events)
    }

    method StayNext(q: Instance, now: seq<Entry>, seenOld: array<bool>, seenNew: array<bool>, k: nat,
                    ghost was: Queue, ghost l: Look, ghost goal: Look)
      returns (ghost after: Look)
      requires Names(now) && k < |now| && seenOld != seenNew && Said(q, now, seenOld, seenNew, was, l)
      requires goal == Pass1(l, kids, now, k)
      modifies q, q.queue, seenOld, seenNew
      ensures Said(q, now, seenOld, seenNew, was, after) && goal == Pass1(after, kids, now, k + 1)
      ensures q.queue == old(q.queue) || fresh(q.queue)
    {
      SayStayed(q, now, seenOld, seenNew, k, was, l);
      after := Stayed(l, kids, now, k);
    }

    method NamesThatStayed(q: Instance, now: seq<Entry>, seenOld: array<bool>, seenNew: array<bool>,
                           ghost was: Queue, ghost l: Look)
      returns (ghost after: Look)
      requires Names(now) && seenOld != seenNew && Said(q, now, seenOld, seenNew, was, l)
      modifies q, q.queue, seenOld, seenNew
      ensures Said(q, now, seenOld, seenNew, was, after) && after == Pass1(l, kids, now, 0)
      ensures q.queue == old(q.queue) || fresh(q.queue)
    {
      after := l;
      ghost var goal := Pass1(l, kids, now, 0);
      var k := 0;
      while k < |now|
        invariant k <= |now| && Said(q, now, seenOld, seenNew, was, after) && goal == Pass1(after, kids, now, k)
        invariant q.queue == old(q.queue) || fresh(q.queue)
      {
        after := StayNext(q, now, seenOld, seenNew, k, was, after, goal);
        k := k + 1;
      }
    }

    /** Pass 2 for one name the new listing lacks: a deletion, or a move. */
    method SayLeft(q: Instance, now: seq<Entry>, seenNew: array<bool>, i: nat, cookie: U32,
                   ghost was: Queue, ghost l: Look)
      returns (cookie': U32)
      requires q.Valid() && Names(kids) && Names(now) && i < |kids|
      requires Fits(l, kids, now) && !l.seenOld[i] && seenNew[..] == l.seenNew && cookie == l.cookie
      requires q.State() == EmitEvents(was, wd, asked, l.events)
      modifies q, q.queue, seenNew
      ensures var t := Left(l, kids, now, i);
        && seenNew[..] == t.seenNew && cookie' == t.cookie
        && q.Valid() && q.State() == EmitEvents(was, wd, asked, t.events)
      ensures q.queue == old(q.queue) || fresh(q.queue)
    {
      cookie' := cookie;
      var k := FindLanding(seenNew, now, kids[i].ino);
      if k < |now| {
        cookie' := Next(cookie);
        SayTwo(q, Event(MovedFrom, cookie', kids[i].name, kids[i].ino, IsDir(kids[i])),
               Event(MovedTo, cookie', now[k].name, now[k].ino, IsDir(kids[i])), was, l.events);
        seenNew[k] := true;
      } else {
        Say(q, Of(Delete, 0, kids[i]), was, l.events);
      }
    }

    /** Pass 2 for one name that was there. */
    method GoneNext(q: Instance, now: seq<Entry>, seenOld: array<bool>, seenNew: array<bool>, i: nat, cookie: U32,
                    ghost was: Queue, ghost l: Look, ghost goal: Look)
      returns (cookie': U32, ghost after: Look)
      requires Names(kids) && Names(now) && i < |kids| && seenOld != seenNew
      requires Said(q, now, seenOld, seenNew, was, l) && cookie == l.cookie && goal == Pass2(l, kids, now, i)
      modifies q, q.queue, seenNew
      ensures Said(q, now, seenOld, seenNew, was, after) && cookie' == after.cookie
      ensures goal == Pass2(after, kids, now, i + 1)
      ensures q.queue == old(q.queue) || fresh(q.queue)
    {
      assert seenOld[..][i] == seenOld[i];
      cookie', after := cookie, Left(l, kids, now, i);
      if !seenOld[i] { cookie' := SayLeft(q, now, seenNew, i, cookie, was, l); }
    }

    method NamesThatLeft(q: Instance, now: seq<Entry>, seenOld: array<bool>, seenNew: array<bool>, cookie: U32,
                         ghost was: Queue, ghost l: Look)
      returns (cookie': U32, ghost after: Look)
      requires Names(kids) && Names(now) && seenOld != seenNew
      requires Said(q, now, seenOld, seenNew, was, l) && cookie == l.cookie
      modifies q, q.queue, seenNew
      ensures Said(q, now, seenOld, seenNew, was, after)
      ensures after == Pass2(l, kids, now, 0) && cookie' == after.cookie
      ensures q.queue == old(q.queue) || fresh(q.queue)
    {
      after, cookie' := l, cookie;
      ghost var goal := Pass2(l, kids, now, 0);
      var i := 0;
      while i < |kids|
        invariant i <= |kids| && Said(q, now, seenOld, seenNew, was, after) && goal == Pass2(after, kids, now, i)
        invariant cookie' == after.cookie && (q.queue == old(q.queue) || fresh(q.queue))
      {
        cookie', after := GoneNext(q, now, seenOld, seenNew, i, cookie', was, after, goal);
        i := i + 1;
      }
    }

    /** Pass 3 for one entry of the new listing. */
    method SayCame(q: Instance, now: seq<Entry>, seenNew: array<bool>, k: nat, ghost was: Queue, ghost l: Look)
      requires q.Valid() && Names(now) && k < |now| == |l.seenNew| && seenNew[..] == l.seenNew
      requires q.State() == EmitEvents(was, wd, asked, l.events)
      modifies q, q.queue
      ensures q.Valid() && q.State() == EmitEvents(was, wd, asked, Came(l, now, k).events)
      ensures q.queue == old(q.queue) || fresh(q.queue)
    {
      if !seenNew[k] { Say(q, Of(Create, 0, now[k]), was, l.events); }
    }

    method NamesThatCame(q: Instance, now: seq<Entry>, seenNew: array<bool>, ghost was: Queue, ghost l: Look)
      returns (ghost after: Look)
      requires q.Valid() && Names(now) && |l.seenNew| == |now| && seenNew[..] == l.seenNew
      requires q.State() == EmitEvents(was, wd, asked, l.events)
      modifies q, q.queue
      ensures after == Pass3(l, now, 0)
      ensures q.Valid() && q.State() == EmitEvents(was, wd, asked, after.events)
      ensures q.queue == old(q.queue) || fresh(q.queue)
    {
      after := l;
      var k := 0;
      while k < |now|
        invariant k <= |now| && |after.seenNew| == |now| && Pass3(l, now, 0) == Pass3(after, now, k)
        invariant seenNew[..] == after.seenNew
        invariant q.Valid() && q.State() == EmitEvents(was, wd, asked, after.events)
        invariant q.queue == old(q.queue) || fresh(q.queue)
      {
        SayCame(q, now, seenNew, k, was, after);
        after := Came(after, now, k);
        k := k + 1;
      }
    }

    /** The three passes. */
    method ThreePasses(q: Instance, now: seq<Entry>, cookie: U32) returns (cookie': U32, ghost l: Look)
      requires q.Valid() && Names(kids) && Names(now)
      modifies q, q.queue
      ensures l == Compare(kids, now, cookie) && cookie' == l.cookie
      ensures q.Valid() && q.State() == EmitEvents(old(q.State()), wd, asked, l.events)
    {
      ghost var was, l0 := q.State(), Unseen(kids, now, cookie);
      var seenOld := new bool[|kids|](_ => false);
      var seenNew := new bool[|now|](_ => false);
      assert seenOld[..] == l0.seenOld && seenNew[..] == l0.seenNew;
      ghost var l1 := NamesThatStayed(q, now, seenOld, seenNew, was, l0);
      CookieKept(l0, kids, now, 0);
      ghost var l2;
      cookie', l2 := NamesThatLeft(q, now, seenOld, seenNew, cookie, was, l1);
      l := NamesThatCame(q, now, seenNew, was, l2);
      Pass3Cookie(l2, now, 0);
    }

    /** A look at the directory finds the listing `now`. */
    method DirectoryChanged(q: Instance, now: seq<Entry>, cookie: U32) returns (cookie': U32, ghost events: seq<Event>)
      requires q.Valid() && Names(kids) && Names(now)
      modifies this`kids, q, q.queue
      ensures Watched(kids, cookie', events) == LookAgain(Watched(old(kids), cookie, []), now)
      ensures q.Valid() && q.State() == EmitEvents(old(q.State()), wd, asked, events)
      ensures old(q.State()).records <= q.State().records
      ensures now != [] && NoneLost(old(q.State()), wd, asked, old(kids), now, events) ==>
        ReadAll(Sees(NamesOf(old(kids)), NoMove), q.State().records[|old(q.State()).records|..])
          == Sees(NamesOf(now), NoMove)
      ensures Unasked(q.State().records[|old(q.State()).records|..], asked)
    {
      ghost var was, had := q.State(), kids;
      NothingUnasked(was, wd, asked, []);
      if now == [] { return cookie, []; }
      ghost var l;
      cookie', l := ThreePasses(q, now, cookie);
      events := l.events;
      assert [] + events == events;
      kids := now;
      NothingUnasked(was, wd, asked, events);
      if NoneLost(was, wd, asked, had, now, events) {
        LookReads(was, wd, asked, had, now, cookie);
        QueueRoundTrip(q.State().records[|was.records|..]);
      }
    }
  }

  lemma {:induction false} CookieKept(l: Look, had: seq<Entry>, now: seq<Entry>, k: nat)
    requires Fits(l, had, now) && k <= |now|
    ensures Pass1(l, had, now, k).cookie == l.cookie
    decreases |now| - k
  {
    if k < |now| { CookieKept(Stayed(l, had, now, k), had, now, k + 1); }
  }

  lemma {:induction false} Pass3Cookie(l: Look, now: seq<Entry>, k: nat)
    requires |l.seenNew| == |now| && k <= |now|
    ensures Pass3(l, now, k).cookie == l.cookie
    decreases |now| - k
  {
    if k < |now| { Pass3Cookie(Came(l, now, k), now, k + 1); }
  }

  lemma Both(es: seq<Event>, e: Event, f: Event)
    ensures (es + [e]) + [f] == es + [e, f]
  {
  }

  lemma FirstIs(s: seq<Entry>, name: Text, i: nat)
    requires i <= |s| && (forall j | 0 <= j < i :: s[j].name != name) && (i < |s| ==> s[i].name == name)
    ensures ByName(s, name) == i
  {
  }
}
