/** What changed in a watched directory, found by comparing two listings: three passes with `seen`
    flags turn the difference into inotify records (src/slipstream_inotify.c:103-125, 216-353). */
module DirectoryDiff {
  import opened InotifyQueue

  type Text = seq<byte>

  /** One name of a listing: the file behind it and what shows that it was written or changed. */
  datatype Entry = Entry(name: Text, ino: nat, mtimeSec: int, mtimeNsec: int, size: nat, mode: nat)

  datatype Kind = Modify | Attrib | MovedFrom | MovedTo | Create | Delete

  /** A record before it is written: `ino` is the file it is about, which the bytes do not carry. */
  datatype Event = Event(kind: Kind, cookie: U32, name: Text, ino: nat, isDir: bool)

  /** S_ISDIR */
  predicate IsDir(e: Entry) { e.mode / 0x1000 % 16 == 4 }

  function Of(kind: Kind, cookie: U32, e: Entry): Event {
    Event(kind, cookie, e.name, e.ino, IsDir(e))
  }

  /** The first entry with this name, or the length. */
  function ByName(s: seq<Entry>, name: Text): (i: nat)
    ensures i <= |s|
    ensures i < |s| ==> s[i].name == name
    ensures forall j | 0 <= j < i :: s[j].name != name
  {
    if s == [] || s[0].name == name then 0 else 1 + ByName(s[1..], name)
  }

  predicate Known(s: seq<Entry>, name: Text) { ByName(s, name) < |s| }

  ghost predicate DistinctNames(s: seq<Entry>) {
    forall i, j | 0 <= i < j < |s| :: s[i].name != s[j].name
  }

  lemma OnlyName(s: seq<Entry>, i: nat)
    requires DistinctNames(s) && i < |s|
    ensures ByName(s, s[i].name) == i
  {
  }

  // ---- the passes --------------------------------------------------------

  /** The flags of both listings, the last cookie given, and what was reported so far. */
  datatype Look = Look(seenOld: seq<bool>, seenNew: seq<bool>, cookie: U32, events: seq<Event>)

  ghost predicate Fits(l: Look, had: seq<Entry>, now: seq<Entry>) {
    |l.seenOld| == |had| && |l.seenNew| == |now|
  }

  /** The name stayed. Another file behind it is two operations; otherwise it was written, or its
      mode changed, or nothing happened. */
  function Changes(was: Entry, became: Entry): seq<Event> {
    if was.ino != became.ino then [Of(Delete, 0, was), Of(Create, 0, became)]
    else if was.mtimeSec != became.mtimeSec || was.mtimeNsec != became.mtimeNsec || was.size != became.size
    then [Of(Modify, 0, became)]
    else if was.mode != became.mode then [Of(Attrib, 0, became)]
    else []
  }

  function Stayed(l: Look, had: seq<Entry>, now: seq<Entry>, k: nat): Look
    requires Fits(l, had, now) && k < |now|
  {
    var i := ByName(had, now[k].name);
    if i == |had| then l
    else l.(seenOld := l.seenOld[i := true], seenNew := l.seenNew[k := true],
            events := l.events + Changes(had[i], now[k]))
  }

  /** Where a file that left its name landed: the first entry not seen yet with its inode. */
  function Landing(seenNew: seq<bool>, now: seq<Entry>, ino: nat, k: nat): (r: nat)
    requires |seenNew| == |now| && k <= |now|
    ensures k <= r <= |now|
    ensures r < |now| ==> !seenNew[r] && now[r].ino == ino
    decreases |now| - k
  {
    if k == |now| || (!seenNew[k] && now[k].ino == ino) then k else Landing(seenNew, now, ino, k + 1)
  }

  /** ++next_cookie, on 32 bits. */
  function Next(cookie: U32): U32 {
    if cookie + 1 == 0x1_0000_0000 then 0 else cookie + 1
  }

  function Move(had: Entry, to: Entry, cookie: U32): seq<Event> {
    [Event(MovedFrom, cookie, had.name, had.ino, IsDir(had)), Event(MovedTo, cookie, to.name, to.ino, IsDir(had))]
  }

  function Left(l: Look, had: seq<Entry>, now: seq<Entry>, i: nat): Look
    requires Fits(l, had, now) && i < |had|
  {
    if l.seenOld[i] then l
    else
      var k := Landing(l.seenNew, now, had[i].ino, 0);
      if k < |now| then
        l.(seenNew := l.seenNew[k := true], cookie := Next(l.cookie),
           events := l.events + Move(had[i], now[k], Next(l.cookie)))
      else l.(events := l.events + [Of(Delete, 0, had[i])])
  }

  function Came(l: Look, now: seq<Entry>, k: nat): Look
    requires k < |now| == |l.seenNew|
  {
    if l.seenNew[k] then l else l.(events := l.events + [Of(Create, 0, now[k])])
  }

  function Pass1(l: Look, had: seq<Entry>, now: seq<Entry>, k: nat): (r: Look)
    requires Fits(l, had, now) && k <= |now|
    ensures Fits(r, had, now)
    decreases |now| - k
  {
    if k == |now| then l else Pass1(Stayed(l, had, now, k), had, now, k + 1)
  }

  function Pass2(l: Look, had: seq<Entry>, now: seq<Entry>, i: nat): (r: Look)
    requires Fits(l, had, now) && i <= |had|
    ensures Fits(r, had, now)
    decreases |had| - i
  {
    if i == |had| then l else Pass2(Left(l, had, now, i), had, now, i + 1)
  }

  function Pass3(l: Look, now: seq<Entry>, k: nat): (r: Look)
    requires |l.seenNew| == |now| && k <= |now|
    ensures |r.seenNew| == |now|
    decreases |now| - k
  {
    if k == |now| then l else Pass3(Came(l, now, k), now, k + 1)
  }

  function Unseen(had: seq<Entry>, now: seq<Entry>, cookie: U32): Look {
    Look(seq(|had|, _ => false), seq(|now|, _ => false), cookie, [])
  }

  function Compare(had: seq<Entry>, now: seq<Entry>, cookie: U32): Look {
    Pass3(Pass2(Pass1(Unseen(had, now, cookie), had, now, 0), had, now, 0), now, 0)
  }

  // ---- replaying records -------------------------------------------------

  /** Names and the files behind them, and a file that left its name and has not arrived yet. */
  datatype Carried = Nothing | Carrying(cookie: U32, ino: nat)

  datatype Replay = Broken | At(files: map<Text, nat>, carried: Carried)

  /** One record, taken strictly: what is deleted or moved must be there, what is created must not
      be, and a file that left its name arrives with the very next record, under the same cookie. */
  function Apply(r: Replay, e: Event): Replay {
    if r.Broken? then Broken
    else if e.kind == MovedTo then
      if r.carried.Carrying? && r.carried.cookie == e.cookie && r.carried.ino == e.ino && e.name !in r.files
      then At(r.files[e.name := r.carried.ino], Nothing) else Broken
    else if r.carried.Carrying? then Broken
    else match e.kind
      case Create => if e.name in r.files then Broken else At(r.files[e.name := e.ino], Nothing)
      case Delete => if e.name in r.files then At(r.files - {e.name}, Nothing) else Broken
      case MovedFrom =>
        if e.name in r.files then At(r.files - {e.name}, Carrying(e.cookie, r.files[e.name])) else Broken
      case Modify => if e.name in r.files && r.files[e.name] == e.ino then r else Broken
      case Attrib => if e.name in r.files && r.files[e.name] == e.ino then r else Broken
  }

  function ApplyAll(r: Replay, es: seq<Event>): Replay {
    if es == [] then r else Apply(ApplyAll(r, es[..|es| - 1]), es[|es| - 1])
  }

  lemma ApplyOne(r: Replay, es: seq<Event>, e: Event)
    ensures ApplyAll(r, es + [e]) == Apply(ApplyAll(r, es), e)
  {
    assert (es + [e])[..|es|] == es;
  }

  lemma ApplyTwo(r: Replay, es: seq<Event>, e: Event, f: Event)
    ensures ApplyAll(r, es + [e, f]) == Apply(Apply(ApplyAll(r, es), e), f)
  {
    assert es + [e, f] == (es + [e]) + [f];
    ApplyOne(r, es, e);
    ApplyOne(r, es + [e], f);
  }

  lemma {:induction false} ApplyConcat(r: Replay, es: seq<Event>, fs: seq<Event>)
    ensures ApplyAll(r, es + fs) == ApplyAll(ApplyAll(r, es), fs)
  {
    if fs == [] {
      assert es + fs == es;
    } else {
      var front, last := fs[..|fs| - 1], fs[|fs| - 1];
      ApplyConcat(r, es, front);
      assert es + fs == (es + front) + [last];
      ApplyOne(r, es + front, last);
    }
  }

  /** A listing as names and files. */
  function MapOf(s: seq<Entry>): map<Text, nat> {
    if s == [] then map[] else MapOf(s[1..])[s[0].name := s[0].ino]
  }

  datatype Found = None | File(ino: nat)

  function Get(m: map<Text, nat>, n: Text): Found {
    if n in m then File(m[n]) else None
  }

  function Listed(s: seq<Entry>, n: Text): Found {
    if Known(s, n) then File(s[ByName(s, n)].ino) else None
  }

  lemma {:induction false} MapOfLists(s: seq<Entry>, n: Text)
    ensures Get(MapOf(s), n) == Listed(s, n)
  {
    if s != [] { MapOfLists(s[1..], n); }
  }

  // ---- what the files are half way ---------------------------------------

  /** The name is answered for: its entry in the new listing was seen, or pass 3 is past it. */
  predicate Settled(l: Look, now: seq<Entry>, k: nat, n: Text)
    requires |l.seenNew| == |now|
  {
    Known(now, n) && (l.seenNew[ByName(now, n)] || ByName(now, n) < k)
  }

  /** The name is still what it was: not seen, and pass 2 has not come to it. */
  predicate Standing(l: Look, had: seq<Entry>, i: nat, n: Text)
    requires |l.seenOld| == |had|
  {
    Known(had, n) && ByName(had, n) >= i && !l.seenOld[ByName(had, n)]
  }

  function Expected(l: Look, had: seq<Entry>, now: seq<Entry>, i: nat, k: nat, n: Text): Found
    requires Fits(l, had, now)
  {
    if Settled(l, now, k, n) then Listed(now, n) else if Standing(l, had, i, n) then Listed(had, n) else None
  }

  /** Replaying what was reported so far gives what is expected so far, name by name. */
  ghost predicate Tracks(l: Look, had: seq<Entry>, now: seq<Entry>, i: nat, k: nat)
    requires Fits(l, had, now)
  {
    var r := ApplyAll(At(MapOf(had), Nothing), l.events);
    && r.At? && r.carried == Nothing
    && forall n :: Get(r.files, n) == Expected(l, had, now, i, k, n)
  }

  /** In pass 1: the flags say which names of the first k new entries are in both listings. */
  ghost predicate Flagged(l: Look, had: seq<Entry>, now: seq<Entry>, k: nat)
    requires Fits(l, had, now)
  {
    && (forall j | 0 <= j < |had| :: l.seenOld[j] == (ByName(now, had[j].name) < k))
    && (forall j | 0 <= j < |now| :: l.seenNew[j] == (j < k && Known(had, now[j].name)))
  }

  /** After it: an unseen old name is nowhere in the new listing, nor an unseen new one in the old. */
  ghost predicate Parted(l: Look, had: seq<Entry>, now: seq<Entry>)
    requires Fits(l, had, now)
  {
    && (forall j | 0 <= j < |had| && !l.seenOld[j] :: !Known(now, had[j].name))
    && (forall j | 0 <= j < |now| && !l.seenNew[j] :: !Known(had, now[j].name))
  }

  lemma StayedFlags(l: Look, had: seq<Entry>, now: seq<Entry>, k: nat)
    requires Fits(l, had, now) && k < |now| && DistinctNames(had) && DistinctNames(now)
    requires Flagged(l, had, now, k)
    ensures Flagged(Stayed(l, had, now, k), had, now, k + 1)
  {
    var t := Stayed(l, had, now, k);
    OnlyName(now, k);
    var i := ByName(had, now[k].name);
    forall j | 0 <= j < |had| ensures t.seenOld[j] == (ByName(now, had[j].name) < k + 1) {
      if ByName(now, had[j].name) == k { OnlyName(had, j); }
    }
  }

  predicate Whole(r: Replay) { r.At? && r.carried == Nothing }

  /** Another file under the same name. */
  lemma Replaced(r: Replay, es: seq<Event>, was: Entry, became: Entry, n: Text)
    requires was.name == became.name && Whole(ApplyAll(r, es)) && was.name in ApplyAll(r, es).files
    ensures var t := ApplyAll(r, es + [Of(Delete, 0, was), Of(Create, 0, became)]);
      Whole(t) && Get(t.files, n) == if n == became.name then File(became.ino) else Get(ApplyAll(r, es).files, n)
  {
    ApplyTwo(r, es, Of(Delete, 0, was), Of(Create, 0, became));
  }

  /** The same file, written or with another mode. */
  lemma Touched(r: Replay, es: seq<Event>, e: Event)
    requires (e.kind == Modify || e.kind == Attrib) && Whole(ApplyAll(r, es))
    requires Get(ApplyAll(r, es).files, e.name) == File(e.ino)
    ensures ApplyAll(r, es + [e]) == ApplyAll(r, es)
  {
    ApplyOne(r, es, e);
  }

  lemma ChangesApply(r: Replay, es: seq<Event>, was: Entry, became: Entry, n: Text)
    requires was.name == became.name && Whole(ApplyAll(r, es)) && Get(ApplyAll(r, es).files, was.name) == File(was.ino)
    ensures var t := ApplyAll(r, es + Changes(was, became));
      Whole(t) && Get(t.files, n) == if n == became.name then File(became.ino) else Get(ApplyAll(r, es).files, n)
  {
    var cs := Changes(was, became);
    if was.ino != became.ino {
      Replaced(r, es, was, became, n);
    } else if cs != [] {
      Touched(r, es, cs[0]);
    } else {
      assert es + cs == es;
    }
  }

  lemma StayedTracks(l: Look, had: seq<Entry>, now: seq<Entry>, k: nat)
    requires Fits(l, had, now) && k < |now| && DistinctNames(had) && DistinctNames(now)
    requires Flagged(l, had, now, k) && Tracks(l, had, now, 0, 0)
    ensures Tracks(Stayed(l, had, now, k), had, now, 0, 0)
  {
    var t := Stayed(l, had, now, k);
    var i := ByName(had, now[k].name);
    if i < |had| {
      OnlyName(had, i);
      var r0 := At(MapOf(had), Nothing);
      StandsYet(l, had, now, k);
      assert Get(ApplyAll(r0, l.events).files, now[k].name) == Expected(l, had, now, 0, 0, now[k].name);
      ChangesApply(r0, l.events, had[i], now[k], now[k].name);
      forall n ensures Get(ApplyAll(r0, t.events).files, n) == Expected(t, had, now, 0, 0, n) {
        assert Get(ApplyAll(r0, l.events).files, n) == Expected(l, had, now, 0, 0, n);
        ChangesApply(r0, l.events, had[i], now[k], n);
        StayedExpected(l, had, now, k, n);
      }
    }
  }

  /** The k-th new name is in the old listing and not settled yet, so the old file stands under it. */
  lemma StandsYet(l: Look, had: seq<Entry>, now: seq<Entry>, k: nat)
    requires Fits(l, had, now) && k < |now| && DistinctNames(had) && DistinctNames(now)
    requires Flagged(l, had, now, k) && Known(had, now[k].name)
    ensures Expected(l, had, now, 0, 0, now[k].name) == File(had[ByName(had, now[k].name)].ino)
  {
    OnlyName(now, k);
    assert !l.seenNew[k] && !l.seenOld[ByName(had, now[k].name)];
  }

  /** Settling the k-th new name changes what is expected of that name and of no other. */
  lemma StayedExpected(l: Look, had: seq<Entry>, now: seq<Entry>, k: nat, n: Text)
    requires Fits(l, had, now) && k < |now| && DistinctNames(had) && DistinctNames(now) && Known(had, now[k].name)
    ensures Expected(Stayed(l, had, now, k), had, now, 0, 0, n)
         == if n == now[k].name then File(now[k].ino) else Expected(l, had, now, 0, 0, n)
  {
    OnlyName(now, k);
    var t, i := Stayed(l, had, now, k), ByName(had, now[k].name);
    if n != now[k].name {
      if Known(now, n) { assert ByName(now, n) != k && t.seenNew[ByName(now, n)] == l.seenNew[ByName(now, n)]; }
      if Known(had, n) { assert ByName(had, n) != i && t.seenOld[ByName(had, n)] == l.seenOld[ByName(had, n)]; }
    }
  }

  lemma {:induction false} Pass1Tracks(l: Look, had: seq<Entry>, now: seq<Entry>, k: nat)
    requires Fits(l, had, now) && k <= |now| && DistinctNames(had) && DistinctNames(now)
    requires Flagged(l, had, now, k) && Tracks(l, had, now, 0, 0)
    ensures var t := Pass1(l, had, now, k); Tracks(t, had, now, 0, 0) && Flagged(t, had, now, |now|)
    decreases |now| - k
  {
    if k < |now| {
      StayedFlags(l, had, now, k);
      StayedTracks(l, had, now, k);
      Pass1Tracks(Stayed(l, had, now, k), had, now, k + 1);
    }
  }

  lemma FlaggedParts(l: Look, had: seq<Entry>, now: seq<Entry>)
    requires Fits(l, had, now) && Flagged(l, had, now, |now|)
    ensures Parted(l, had, now)
  {
  }

  lemma StartTracks(had: seq<Entry>, now: seq<Entry>, cookie: U32)
    ensures var l := Unseen(had, now, cookie); Flagged(l, had, now, 0) && Tracks(l, had, now, 0, 0)
  {
    var l := Unseen(had, now, cookie);
    forall n ensures Get(MapOf(had), n) == Expected(l, had, now, 0, 0, n) { MapOfLists(had, n); }
  }

  lemma MovedApply(r: Replay, es: seq<Event>, was: Entry, to: Entry, cookie: U32, n: Text)
    requires Whole(ApplyAll(r, es)) && Get(ApplyAll(r, es).files, was.name) == File(was.ino)
    requires to.ino == was.ino && to.name !in ApplyAll(r, es).files
    ensures var t := ApplyAll(r, es + Move(was, to, cookie));
      Whole(t) && Get(t.files, n) == if n == to.name then File(to.ino) else if n == was.name then None
                                     else Get(ApplyAll(r, es).files, n)
  {
    var m := Move(was, to, cookie);
    ApplyTwo(r, es, m[0], m[1]);
  }

  lemma DeletedApply(r: Replay, es: seq<Event>, was: Entry, n: Text)
    requires Whole(ApplyAll(r, es)) && was.name in ApplyAll(r, es).files
    ensures var t := ApplyAll(r, es + [Of(Delete, 0, was)]);
      Whole(t) && Get(t.files, n) == if n == was.name then None else Get(ApplyAll(r, es).files, n)
  {
    ApplyOne(r, es, Of(Delete, 0, was));
  }

  /** A name that was settled in pass 1 needs nothing more. */
  lemma SeenTracks(l: Look, had: seq<Entry>, now: seq<Entry>, i: nat)
    requires Fits(l, had, now) && i < |had| && DistinctNames(had) && l.seenOld[i]
    requires Tracks(l, had, now, i, 0)
    ensures Tracks(l, had, now, i + 1, 0)
  {
    OnlyName(had, i);
    forall n ensures Expected(l, had, now, i + 1, 0, n) == Expected(l, had, now, i, 0, n) {
      if Known(had, n) && ByName(had, n) == i { assert n == had[i].name; }
    }
    var r := ApplyAll(At(MapOf(had), Nothing), l.events);
    forall n ensures Get(r.files, n) == Expected(l, had, now, i + 1, 0, n) {
      assert Get(r.files, n) == Expected(l, had, now, i, 0, n);
    }
  }

  /** A name that went with its file. */
  lemma GoneTracks(l: Look, had: seq<Entry>, now: seq<Entry>, i: nat)
    requires Fits(l, had, now) && i < |had| && DistinctNames(had) && DistinctNames(now)
    requires Parted(l, had, now) && Tracks(l, had, now, i, 0) && !l.seenOld[i]
    requires Landing(l.seenNew, now, had[i].ino, 0) == |now|
    ensures Tracks(Left(l, had, now, i), had, now, i + 1, 0)
  {
    var t := Left(l, had, now, i);
    var r0 := At(MapOf(had), Nothing);
    GoneExpected(l, had, now, i, had[i].name);
    assert Get(ApplyAll(r0, l.events).files, had[i].name) == Expected(l, had, now, i, 0, had[i].name);
    DeletedApply(r0, l.events, had[i], had[i].name);
    forall n ensures Get(ApplyAll(r0, t.events).files, n) == Expected(t, had, now, i + 1, 0, n) {
      assert Get(ApplyAll(r0, l.events).files, n) == Expected(l, had, now, i, 0, n);
      DeletedApply(r0, l.events, had[i], n);
      GoneExpected(l, had, now, i, n);
    }
  }

  /** That name is not expected any more, and nothing else changes. */
  lemma GoneExpected(l: Look, had: seq<Entry>, now: seq<Entry>, i: nat, n: Text)
    requires Fits(l, had, now) && i < |had| && DistinctNames(had) && Parted(l, had, now) && !l.seenOld[i]
    requires Landing(l.seenNew, now, had[i].ino, 0) == |now|
    ensures Expected(l, had, now, i, 0, had[i].name) == File(had[i].ino)
    ensures Expected(Left(l, had, now, i), had, now, i + 1, 0, n)
         == if n == had[i].name then None else Expected(l, had, now, i, 0, n)
  {
    OnlyName(had, i);
    assert !Known(now, had[i].name);
    if n != had[i].name && Known(had, n) { assert ByName(had, n) != i; }
  }

  lemma LeftTracks(l: Look, had: seq<Entry>, now: seq<Entry>, i: nat)
    requires Fits(l, had, now) && i < |had| && DistinctNames(had) && DistinctNames(now)
    requires Parted(l, had, now) && Tracks(l, had, now, i, 0)
    ensures Tracks(Left(l, had, now, i), had, now, i + 1, 0)
  {
    var k := Landing(l.seenNew, now, had[i].ino, 0);
    if l.seenOld[i] {
      SeenTracks(l, had, now, i);
    } else if k < |now| {
      LandedTracks(l, had, now, i, k);
    } else {
      GoneTracks(l, had, now, i);
    }
  }


  lemma LandedTracks(l: Look, had: seq<Entry>, now: seq<Entry>, i: nat, k: nat)
    requires Fits(l, had, now) && i < |had| && DistinctNames(had) && DistinctNames(now)
    requires Parted(l, had, now) && Tracks(l, had, now, i, 0) && !l.seenOld[i]
    requires k == Landing(l.seenNew, now, had[i].ino, 0) < |now|
    ensures Tracks(Left(l, had, now, i), had, now, i + 1, 0)
  {
    var t := Left(l, had, now, i);
    var r0 := At(MapOf(had), Nothing);
    OnlyName(had, i);
    OnlyName(now, k);
    assert Get(ApplyAll(r0, l.events).files, had[i].name) == Expected(l, had, now, i, 0, had[i].name);
    assert Get(ApplyAll(r0, l.events).files, now[k].name) == Expected(l, had, now, i, 0, now[k].name);
    MovedApply(r0, l.events, had[i], now[k], Next(l.cookie), had[i].name);
    forall n ensures Get(ApplyAll(r0, t.events).files, n) == Expected(t, had, now, i + 1, 0, n) {
      assert Get(ApplyAll(r0, l.events).files, n) == Expected(l, had, now, i, 0, n);
      MovedApply(r0, l.events, had[i], now[k], Next(l.cookie), n);
    }
  }

  lemma LeftParts(l: Look, had: seq<Entry>, now: seq<Entry>, i: nat)
    requires Fits(l, had, now) && i < |had| && Parted(l, had, now)
    ensures Parted(Left(l, had, now, i), had, now)
  {
  }

  lemma {:induction false} Pass2Tracks(l: Look, had: seq<Entry>, now: seq<Entry>, i: nat)
    requires Fits(l, had, now) && i <= |had| && DistinctNames(had) && DistinctNames(now)
    requires Parted(l, had, now) && Tracks(l, had, now, i, 0)
    ensures var t := Pass2(l, had, now, i); Tracks(t, had, now, |had|, 0)
    decreases |had| - i
  {
    if i < |had| {
      LeftTracks(l, had, now, i);
      LeftParts(l, had, now, i);
      Pass2Tracks(Left(l, had, now, i), had, now, i + 1);
    }
  }

  lemma CameTracks(l: Look, had: seq<Entry>, now: seq<Entry>, k: nat)
    requires Fits(l, had, now) && k < |now| && DistinctNames(now)
    requires Tracks(l, had, now, |had|, k)
    ensures Tracks(Came(l, now, k), had, now, |had|, k + 1)
  {
    var t := Came(l, now, k);
    var r0 := At(MapOf(had), Nothing);
    OnlyName(now, k);
    assert Get(ApplyAll(r0, l.events).files, now[k].name) == Expected(l, had, now, |had|, k, now[k].name);
    if !l.seenNew[k] { ApplyOne(r0, l.events, Of(Create, 0, now[k])); }
    forall n ensures Get(ApplyAll(r0, t.events).files, n) == Expected(t, had, now, |had|, k + 1, n) {
      assert Get(ApplyAll(r0, l.events).files, n) == Expected(l, had, now, |had|, k, n);
    }
  }

  lemma {:induction false} Pass3Tracks(l: Look, had: seq<Entry>, now: seq<Entry>, k: nat)
    requires Fits(l, had, now) && k <= |now| && DistinctNames(now)
    requires Tracks(l, had, now, |had|, k)
    ensures var t := Pass3(l, now, k); Fits(t, had, now) && Tracks(t, had, now, |had|, |now|)
    decreases |now| - k
  {
    if k < |now| {
      CameTracks(l, had, now, k);
      Pass3Tracks(Came(l, now, k), had, now, k + 1);
    }
  }

  /** Replaying the records of a look, strictly and in order, turns the old listing into the new. */
  lemma CompareReplays(had: seq<Entry>, now: seq<Entry>, cookie: U32)
    requires DistinctNames(had) && DistinctNames(now)
    ensures ApplyAll(At(MapOf(had), Nothing), Compare(had, now, cookie).events) == At(MapOf(now), Nothing)
  {
    var l := Unseen(had, now, cookie);
    StartTracks(had, now, cookie);
    Pass1Tracks(l, had, now, 0);
    var p := Pass1(l, had, now, 0);
    FlaggedParts(p, had, now);
    Pass2Tracks(p, had, now, 0);
    var q := Pass2(p, had, now, 0);
    Pass3Tracks(q, had, now, 0);
    var t := Pass3(q, now, 0);
    var r := ApplyAll(At(MapOf(had), Nothing), t.events);
    forall n ensures Get(r.files, n) == Get(MapOf(now), n) {
      MapOfLists(now, n);
      assert Get(r.files, n) == Expected(t, had, now, |had|, |now|, n);
    }
    SameMap(r.files, MapOf(now));
  }

  lemma SameMap(a: map<Text, nat>, b: map<Text, nat>)
    requires forall n :: Get(a, n) == Get(b, n)
    ensures a == b
  {
    assert forall n :: n in a <==> Get(a, n).File?;
    assert forall n :: n in b <==> Get(b, n).File?;
    assert a.Keys == b.Keys;
    forall n | n in a ensures a[n] == b[n] { assert Get(a, n) == Get(b, n); }
  }

  // ---- what is said about a name that stayed -----------------------------

  /** The records that carry this name. */
  function About(es: seq<Event>, n: Text): seq<Event> {
    if es == [] then []
    else About(es[..|es| - 1], n) + (if es[|es| - 1].name == n then [es[|es| - 1]] else [])
  }

  lemma {:induction false} AboutConcat(es: seq<Event>, fs: seq<Event>, n: Text)
    ensures About(es + fs, n) == About(es, n) + About(fs, n)
  {
    if fs == [] {
      assert es + fs == es;
    } else {
      assert (es + fs)[..|es + fs| - 1] == es + fs[..|fs| - 1];
      AboutConcat(es, fs[..|fs| - 1], n);
    }
  }

  lemma {:induction false} AboutOther(es: seq<Event>, n: Text)
    requires forall i | 0 <= i < |es| :: es[i].name != n
    ensures About(es, n) == []
  {
    if es != [] { AboutOther(es[..|es| - 1], n); }
  }

  ghost predicate Silent(es: seq<Event>, n: Text) {
    forall i | 0 <= i < |es| :: es[i].name != n
  }

  /** What one new entry adds in pass 1. */
  function StayedEvents(had: seq<Entry>, now: seq<Entry>, k: nat): seq<Event>
    requires k < |now|
  {
    var i := ByName(had, now[k].name);
    if i == |had| then [] else Changes(had[i], now[k])
  }

  lemma StayedAdds(l: Look, had: seq<Entry>, now: seq<Entry>, k: nat)
    requires Fits(l, had, now) && k < |now|
    ensures Stayed(l, had, now, k).events == l.events + StayedEvents(had, now, k)
    ensures forall i | 0 <= i < |StayedEvents(had, now, k)| :: StayedEvents(had, now, k)[i].name == now[k].name
  {
  }

  lemma Chain(a: seq<Event>, b: seq<Event>, c: seq<Event>)
    ensures (a + b) + c == a + (b + c)
  {
  }

  /** Past the name, pass 1 tells no more of it. */
  lemma {:induction false} Pass1Silent(l: Look, had: seq<Entry>, now: seq<Entry>, k: nat, at: nat)
    returns (es: seq<Event>)
    requires Fits(l, had, now) && at < k <= |now| && DistinctNames(now)
    ensures Pass1(l, had, now, k).events == l.events + es && Silent(es, now[at].name)
    decreases |now| - k
  {
    if k == |now| {
      es := [];
    } else {
      StayedAdds(l, had, now, k);
      var rest := Pass1Silent(Stayed(l, had, now, k), had, now, k + 1, at);
      Chain(l.events, StayedEvents(had, now, k), rest);
      es := StayedEvents(had, now, k) + rest;
    }
  }

  /** Before and after it, pass 1 tells nothing of a name. */
  lemma {:induction false} Pass1Tells(l: Look, had: seq<Entry>, now: seq<Entry>, k: nat, at: nat)
    returns (before: seq<Event>, after: seq<Event>)
    requires Fits(l, had, now) && k <= at < |now| && DistinctNames(now)
    ensures Pass1(l, had, now, k).events == l.events + (before + (StayedEvents(had, now, at) + after))
    ensures Silent(before, now[at].name) && Silent(after, now[at].name)
    decreases |now| - k
  {
    var s := Stayed(l, had, now, k);
    StayedAdds(l, had, now, k);
    if k == at {
      before := [];
      after := Pass1Silent(s, had, now, k + 1, at);
      Chain(l.events, StayedEvents(had, now, at), after);
      assert [] + (StayedEvents(had, now, at) + after) == StayedEvents(had, now, at) + after;
    } else {
      before, after := Pass1Tells(s, had, now, k + 1, at);
      Chain(l.events, StayedEvents(had, now, k), before + (StayedEvents(had, now, at) + after));
      Chain(StayedEvents(had, now, k), before, StayedEvents(had, now, at) + after);
      before := StayedEvents(had, now, k) + before;
    }
  }

  lemma {:induction false} Pass2Silent(l: Look, had: seq<Entry>, now: seq<Entry>, i: nat, at: nat)
    returns (es: seq<Event>)
    requires Fits(l, had, now) && i <= |had| && at < |now| && l.seenNew[at] && DistinctNames(now)
    requires forall j | 0 <= j < |had| && had[j].name == now[at].name :: l.seenOld[j]
    ensures var t := Pass2(l, had, now, i);
      t.events == l.events + es && Silent(es, now[at].name) && t.seenNew[at]
    decreases |had| - i
  {
    if i == |had| {
      es := [];
    } else {
      var s := Left(l, had, now, i);
      var one := s.events[|l.events|..];
      assert s.events == l.events + one && Silent(one, now[at].name);
      var rest := Pass2Silent(s, had, now, i + 1, at);
      Chain(l.events, one, rest);
      es := one + rest;
    }
  }

  lemma {:induction false} Pass3Silent(l: Look, now: seq<Entry>, k: nat, at: nat) returns (es: seq<Event>)
    requires |l.seenNew| == |now| && k <= |now| && at < |now| && l.seenNew[at] && DistinctNames(now)
    ensures Pass3(l, now, k).events == l.events + es && Silent(es, now[at].name)
    decreases |now| - k
  {
    if k == |now| {
      es := [];
    } else {
      var s := Came(l, now, k);
      var one := s.events[|l.events|..];
      assert s.events == l.events + one && Silent(one, now[at].name);
      var rest := Pass3Silent(s, now, k + 1, at);
      Chain(l.events, one, rest);
      es := one + rest;
    }
  }

  lemma AboutAll(before: seq<Event>, es: seq<Event>, after: seq<Event>, later: seq<Event>, last: seq<Event>, n: Text)
    requires Silent(before, n) && Silent(after, n) && Silent(later, n) && Silent(last, n)
    ensures About((before + (es + after)) + later + last, n) == About(es, n)
  {
    AboutConcat(before + (es + after) + later, last, n);
    AboutConcat(before + (es + after), later, n);
    AboutConcat(before, es + after, n);
    AboutConcat(es, after, n);
    AboutOther(before, n);
    AboutOther(after, n);
    AboutOther(later, n);
    AboutOther(last, n);
  }

  /** All that is said of a name that stayed are the changes of its file. */
  lemma StayedAbout(had: seq<Entry>, now: seq<Entry>, i: nat, at: nat, cookie: U32)
    requires DistinctNames(had) && DistinctNames(now) && i < |had| && at < |now|
    requires had[i].name == now[at].name && had[i].ino == now[at].ino
    ensures About(Compare(had, now, cookie).events, now[at].name) == About(Changes(had[i], now[at]), now[at].name)
  {
    var n := now[at].name;
    OnlyName(had, i);
    var l := Unseen(had, now, cookie);
    var before, after := Pass1Tells(l, had, now, 0, at);
    StartTracks(had, now, cookie);
    Pass1Tracks(l, had, now, 0);
    var p := Pass1(l, had, now, 0);
    OnlyName(now, at);
    var later := Pass2Silent(p, had, now, 0, at);
    var q := Pass2(p, had, now, 0);
    var last := Pass3Silent(q, now, 0, at);
    var cs := Changes(had[i], now[at]);
    assert cs == StayedEvents(had, now, at);
    AboutAll(before, cs, after, later, last, n);
    assert Pass3(q, now, 0).events == (before + (cs + after)) + later + last;
  }

  /** A file that kept its name is reported once if at all: as written when its time or size
      changed, else as changed in its attributes when its mode did. */
  lemma StayedTold(had: seq<Entry>, now: seq<Entry>, i: nat, at: nat, cookie: U32)
    requires DistinctNames(had) && DistinctNames(now) && i < |had| && at < |now|
    requires had[i].name == now[at].name && had[i].ino == now[at].ino
    ensures var es := About(Compare(had, now, cookie).events, now[at].name);
      var written :=
        (had[i].mtimeSec, had[i].mtimeNsec, had[i].size) != (now[at].mtimeSec, now[at].mtimeNsec, now[at].size);
      && |es| <= 1
      && (es != [] && es[0].kind == Modify <==> written)
      && (es != [] && es[0].kind == Attrib <==> !written && had[i].mode != now[at].mode)
      && (es == [] <==> !written && had[i].mode == now[at].mode)
  {
    var n, cs := now[at].name, Changes(had[i], now[at]);
    StayedAbout(had, now, i, at, cookie);
    assert About([], n) == [];
    if cs != [] { assert cs[..0] == [] && About(cs, n) == [cs[0]]; }
  }

  // ---- cookies -----------------------------------------------------------

  /** The cookies of the moves reported, in order. */
  function MoveCookies(es: seq<Event>): seq<U32> {
    if es == [] then []
    else MoveCookies(es[..|es| - 1]) + (if es[|es| - 1].kind == MovedFrom then [es[|es| - 1].cookie] else [])
  }

  function CookieAfter(c: U32, m: nat): U32 {
    if m == 0 then c else Next(CookieAfter(c, m - 1))
  }

  function CookiesFrom(c: U32, m: nat): seq<U32> {
    if m == 0 then [] else CookiesFrom(c, m - 1) + [CookieAfter(c, m)]
  }

  ghost predicate Numbered(l: Look, c: U32) {
    var m := |MoveCookies(l.events)|;
    MoveCookies(l.events) == CookiesFrom(c, m) && l.cookie == CookieAfter(c, m)
  }

  lemma CookiesOne(es: seq<Event>, e: Event)
    ensures MoveCookies(es + [e]) == MoveCookies(es) + (if e.kind == MovedFrom then [e.cookie] else [])
  {
    assert (es + [e])[..|es|] == es;
  }

  lemma CookiesTwo(es: seq<Event>, e: Event, f: Event)
    requires f.kind != MovedFrom
    ensures MoveCookies(es + [e, f]) == MoveCookies(es) + (if e.kind == MovedFrom then [e.cookie] else [])
  {
    assert es + [e, f] == (es + [e]) + [f];
    CookiesOne(es, e);
    CookiesOne(es + [e], f);
  }

  lemma StayedNumbered(l: Look, had: seq<Entry>, now: seq<Entry>, k: nat, c: U32)
    requires Fits(l, had, now) && k < |now| && Numbered(l, c)
    ensures Numbered(Stayed(l, had, now, k), c)
  {
    var i := ByName(had, now[k].name);
    if i < |had| {
      var es := Changes(had[i], now[k]);
      if |es| == 2 {
        CookiesTwo(l.events, es[0], es[1]);
      } else if |es| == 1 {
        CookiesOne(l.events, es[0]);
      } else {
        assert l.events + es == l.events;
      }
    }
  }

  lemma LeftNumbered(l: Look, had: seq<Entry>, now: seq<Entry>, i: nat, c: U32)
    requires Fits(l, had, now) && i < |had| && Numbered(l, c)
    ensures Numbered(Left(l, had, now, i), c)
  {
    if !l.seenOld[i] {
      var k := Landing(l.seenNew, now, had[i].ino, 0);
      if k < |now| {
        var m := Move(had[i], now[k], Next(l.cookie));
        CookiesTwo(l.events, m[0], m[1]);
      } else {
        CookiesOne(l.events, Of(Delete, 0, had[i]));
      }
    }
  }

  lemma {:induction false} Pass1Numbered(l: Look, had: seq<Entry>, now: seq<Entry>, k: nat, c: U32)
    requires Fits(l, had, now) && k <= |now| && Numbered(l, c)
    ensures Numbered(Pass1(l, had, now, k), c)
    decreases |now| - k
  {
    if k < |now| {
      StayedNumbered(l, had, now, k, c);
      Pass1Numbered(Stayed(l, had, now, k), had, now, k + 1, c);
    }
  }

  lemma {:induction false} Pass2Numbered(l: Look, had: seq<Entry>, now: seq<Entry>, i: nat, c: U32)
    requires Fits(l, had, now) && i <= |had| && Numbered(l, c)
    ensures Numbered(Pass2(l, had, now, i), c)
    decreases |had| - i
  {
    if i < |had| {
      LeftNumbered(l, had, now, i, c);
      Pass2Numbered(Left(l, had, now, i), had, now, i + 1, c);
    }
  }

  lemma {:induction false} Pass3Numbered(l: Look, now: seq<Entry>, k: nat, c: U32)
    requires |l.seenNew| == |now| && k <= |now| && Numbered(l, c)
    ensures Numbered(Pass3(l, now, k), c)
    decreases |now| - k
  {
    if k < |now| {
      if !l.seenNew[k] { CookiesOne(l.events, Of(Create, 0, now[k])); }
      Pass3Numbered(Came(l, now, k), now, k + 1, c);
    }
  }

  /** The m-th cookie after c; it is 0 exactly when the counter wraps there. */
  lemma {:induction false} CookieIs(c: U32, m: nat)
    ensures CookieAfter(c, m) == (c + m) % 0x1_0000_0000
  {
    if m > 0 {
      CookieIs(c, m - 1);
      UpMod(c + m - 1);
    }
  }

  lemma UpMod(x: nat)
    ensures (x + 1) % 0x1_0000_0000 == if x % 0x1_0000_0000 + 1 == 0x1_0000_0000 then 0 else x % 0x1_0000_0000 + 1
  {
    var n := 0x1_0000_0000;
    assert x == n * (x / n) + x % n;
    if x % n + 1 == n { assert x + 1 == n * (x / n + 1); } else { assert x + 1 == n * (x / n) + (x % n + 1); }
  }

  /** Every move of a look has a cookie of its own, counted on from the last one given. */
  lemma CompareNumbers(had: seq<Entry>, now: seq<Entry>, c: U32)
    ensures Numbered(Compare(had, now, c), c)
  {
    Pass1Numbered(Unseen(had, now, c), had, now, 0, c);
    var p := Pass1(Unseen(had, now, c), had, now, 0);
    Pass2Numbered(p, had, now, 0, c);
    Pass3Numbered(Pass2(p, had, now, 0), now, 0, c);
  }

  // ---- looks -------------------------------------------------------------

  /** What the watch remembers, the last cookie, and everything it ever reported. */
  datatype Watched = Watched(kids: seq<Entry>, cookie: U32, events: seq<Event>)

  /** A look that finds no entry changes nothing: an empty listing and a failed one are alike. */
  function LookAgain(w: Watched, now: seq<Entry>): Watched {
    if now == [] then w
    else
      var l := Compare(w.kids, now, w.cookie);
      Watched(now, l.cookie, w.events + l.events)
  }

  /** The records of one look turn the old listing into the new one exactly when the directory did
      not become empty. */
  lemma LookExact(w: Watched, now: seq<Entry>)
    requires DistinctNames(w.kids) && DistinctNames(now)
    ensures var u := LookAgain(w, now);
      ApplyAll(At(MapOf(w.kids), Nothing), u.events[|w.events|..]) == At(MapOf(now), Nothing)
      <==> now != [] || w.kids == []
  {
    var u := LookAgain(w, now);
    if now != [] {
      CompareReplays(w.kids, now, w.cookie);
      assert u.events[|w.events|..] == Compare(w.kids, now, w.cookie).events;
    } else if w.kids != [] {
      assert w.kids[0].name in MapOf(w.kids);
    }
  }

  function LookAll(w: Watched, looks: seq<seq<Entry>>): Watched
    decreases |looks|
  {
    if looks == [] then w else LookAll(LookAgain(w, looks[0]), looks[1..])
  }

  /** Over any run of looks, replaying everything reported since the first listing gives what the
      watch remembers. */
  lemma {:induction false} LooksReplay(first: seq<Entry>, w: Watched, looks: seq<seq<Entry>>)
    requires DistinctNames(w.kids) && forall i | 0 <= i < |looks| :: DistinctNames(looks[i])
    requires ApplyAll(At(MapOf(first), Nothing), w.events) == At(MapOf(w.kids), Nothing)
    ensures var u := LookAll(w, looks);
      ApplyAll(At(MapOf(first), Nothing), u.events) == At(MapOf(u.kids), Nothing)
    decreases |looks|
  {
    if looks != [] {
      var now := looks[0];
      if now != [] {
        CompareReplays(w.kids, now, w.cookie);
        ApplyConcat(At(MapOf(first), Nothing), w.events, Compare(w.kids, now, w.cookie).events);
      }
      LooksReplay(first, LookAgain(w, now), looks[1..]);
    }
  }

  // ---- what the records are about ----------------------------------------

  /** The record is true of the listings: what came or stayed is in the new one, what left was in the
      old one, and it is called a directory exactly when the file is one. A move carries the old
      entry's. */
  ghost predicate True(e: Event, had: seq<Entry>, now: seq<Entry>) {
    match e.kind
    case Delete => exists i :: 0 <= i < |had| && Shows(e, had[i])
    case MovedFrom => exists i :: 0 <= i < |had| && Shows(e, had[i])
    case MovedTo =>
      && (exists k :: 0 <= k < |now| && now[k].name == e.name && now[k].ino == e.ino)
      && exists i :: 0 <= i < |had| && had[i].ino == e.ino && e.isDir == Directory(had[i].mode)
    case _ => exists k :: 0 <= k < |now| && Shows(e, now[k])
  }

  predicate Shows(e: Event, f: Entry) {
    e.name == f.name && e.ino == f.ino && e.isDir == Directory(f.mode)
  }

  /** The type bits of a mode, 0xF000, say 0x4000. */
  predicate Directory(mode: nat) { mode % 0x1_0000 / 0x1000 == 4 }

  lemma DirectoryIs(mode: nat)
    ensures Directory(mode) == (mode / 0x1000 % 16 == 4)
  {
  }

  ghost predicate AllTrue(es: seq<Event>, had: seq<Entry>, now: seq<Entry>) {
    forall i | 0 <= i < |es| :: True(es[i], had, now)
  }

  lemma OfShows(kind: Kind, cookie: U32, f: Entry)
    ensures Shows(Of(kind, cookie, f), f)
  {
    DirectoryIs(f.mode);
  }

  lemma StayedTrue(l: Look, had: seq<Entry>, now: seq<Entry>, k: nat)
    requires Fits(l, had, now) && k < |now| && AllTrue(l.events, had, now)
    ensures AllTrue(Stayed(l, had, now, k).events, had, now)
  {
    var i := ByName(had, now[k].name);
    if i < |had| {
      OfShows(Delete, 0, had[i]);
      OfShows(Create, 0, now[k]);
      OfShows(Modify, 0, now[k]);
      OfShows(Attrib, 0, now[k]);
      var es := Changes(had[i], now[k]);
      assert forall j | 0 <= j < |es| :: True(es[j], had, now);
    }
  }

  lemma LeftTrue(l: Look, had: seq<Entry>, now: seq<Entry>, i: nat)
    requires Fits(l, had, now) && i < |had| && AllTrue(l.events, had, now)
    ensures AllTrue(Left(l, had, now, i).events, had, now)
  {
    if !l.seenOld[i] {
      OfShows(Delete, 0, had[i]);
      DirectoryIs(had[i].mode);
      var k := Landing(l.seenNew, now, had[i].ino, 0);
      if k < |now| {
        var m := Move(had[i], now[k], Next(l.cookie));
        assert Shows(m[0], had[i]);
        assert True(m[0], had, now) && True(m[1], had, now);
      }
    }
  }

  lemma CameTrue(l: Look, had: seq<Entry>, now: seq<Entry>, k: nat)
    requires Fits(l, had, now) && k < |now| && AllTrue(l.events, had, now)
    ensures AllTrue(Came(l, now, k).events, had, now)
  {
    OfShows(Create, 0, now[k]);
    assert True(Of(Create, 0, now[k]), had, now);
  }

  lemma {:induction false} Pass1True(l: Look, had: seq<Entry>, now: seq<Entry>, k: nat)
    requires Fits(l, had, now) && k <= |now| && AllTrue(l.events, had, now)
    ensures AllTrue(Pass1(l, had, now, k).events, had, now)
    decreases |now| - k
  {
    if k < |now| {
      StayedTrue(l, had, now, k);
      Pass1True(Stayed(l, had, now, k), had, now, k + 1);
    }
  }

  lemma {:induction false} Pass2True(l: Look, had: seq<Entry>, now: seq<Entry>, i: nat)
    requires Fits(l, had, now) && i <= |had| && AllTrue(l.events, had, now)
    ensures AllTrue(Pass2(l, had, now, i).events, had, now)
    decreases |had| - i
  {
    if i < |had| {
      LeftTrue(l, had, now, i);
      Pass2True(Left(l, had, now, i), had, now, i + 1);
    }
  }

  lemma {:induction false} Pass3True(l: Look, had: seq<Entry>, now: seq<Entry>, k: nat)
    requires Fits(l, had, now) && k <= |now| && AllTrue(l.events, had, now)
    ensures AllTrue(Pass3(l, now, k).events, had, now)
    decreases |now| - k
  {
    if k < |now| {
      CameTrue(l, had, now, k);
      Pass3True(Came(l, now, k), had, now, k + 1);
    }
  }

  /** Every record of a look is true of the two listings. */
  lemma CompareTrue(had: seq<Entry>, now: seq<Entry>, cookie: U32)
    ensures AllTrue(Compare(had, now, cookie).events, had, now)
  {
    var l := Unseen(had, now, cookie);
    Pass1True(l, had, now, 0);
    var p := Pass1(l, had, now, 0);
    Pass2True(p, had, now, 0);
    Pass3True(Pass2(p, had, now, 0), had, now, 0);
  }

  // ---- a move is told as a move ------------------------------------------

  lemma {:induction false} LandsNowhere(seenNew: seq<bool>, now: seq<Entry>, ino: nat, k: nat)
    requires |seenNew| == |now| && k <= |now| && Landing(seenNew, now, ino, k) == |now|
    ensures forall j | k <= j < |now| :: seenNew[j] || now[j].ino != ino
    decreases |now| - k
  {
    if k < |now| { LandsNowhere(seenNew, now, ino, k + 1); }
  }

  /** The record says that a file went with its name, or came with one. */
  predicate Gone(e: Event, now: seq<Entry>) { e.kind == Delete && !Known(now, e.name) }

  predicate New(e: Event, had: seq<Entry>) { e.kind == Create && !Known(had, e.name) }

  /** No file that went is under a name nobody accounted for, and nobody came yet. */
  ghost predicate NoneLands(l: Look, had: seq<Entry>, now: seq<Entry>)
    requires Fits(l, had, now)
  {
    && (forall i, j | 0 <= i < |l.events| && 0 <= j < |now| && Gone(l.events[i], now) && !l.seenNew[j] ::
          now[j].ino != l.events[i].ino)
    && (forall i | 0 <= i < |l.events| :: !New(l.events[i], had))
  }

  lemma StayedLands(l: Look, had: seq<Entry>, now: seq<Entry>, k: nat)
    requires Fits(l, had, now) && k < |now| && NoneLands(l, had, now)
    ensures NoneLands(Stayed(l, had, now, k), had, now)
  {
    var i := ByName(had, now[k].name);
    if i < |had| {
      var es := Changes(had[i], now[k]);
      assert had[i].name == now[k].name;
      KnownAt(had, i);
      KnownAt(now, k);
      assert forall j | 0 <= j < |es| :: !Gone(es[j], now) && !New(es[j], had);
    }
  }

  lemma KnownAt(s: seq<Entry>, i: nat)
    requires i < |s|
    ensures Known(s, s[i].name)
  {
  }

  lemma LeftLands(l: Look, had: seq<Entry>, now: seq<Entry>, i: nat)
    requires Fits(l, had, now) && i < |had| && NoneLands(l, had, now)
    ensures NoneLands(Left(l, had, now, i), had, now)
  {
    if !l.seenOld[i] && Landing(l.seenNew, now, had[i].ino, 0) == |now| {
      LandsNowhere(l.seenNew, now, had[i].ino, 0);
    }
  }

  lemma {:induction false} Pass1Lands(l: Look, had: seq<Entry>, now: seq<Entry>, k: nat)
    requires Fits(l, had, now) && k <= |now| && NoneLands(l, had, now)
    ensures NoneLands(Pass1(l, had, now, k), had, now)
    decreases |now| - k
  {
    if k < |now| {
      StayedLands(l, had, now, k);
      Pass1Lands(Stayed(l, had, now, k), had, now, k + 1);
    }
  }

  lemma {:induction false} Pass2Lands(l: Look, had: seq<Entry>, now: seq<Entry>, i: nat)
    requires Fits(l, had, now) && i <= |had| && NoneLands(l, had, now)
    ensures NoneLands(Pass2(l, had, now, i), had, now)
    decreases |had| - i
  {
    if i < |had| {
      LeftLands(l, had, now, i);
      Pass2Lands(Left(l, had, now, i), had, now, i + 1);
    }
  }

  /** Whoever comes is under a name nobody accounted for. */
  ghost predicate Apart(es: seq<Event>, had: seq<Entry>, now: seq<Entry>) {
    forall i, j | 0 <= i < |es| && 0 <= j < |es| && Gone(es[i], now) && New(es[j], had) :: es[i].ino != es[j].ino
  }

  lemma {:induction false} Pass3Apart(l: Look, had: seq<Entry>, now: seq<Entry>, k: nat)
    requires Fits(l, had, now) && k <= |now| && Apart(l.events, had, now)
    requires forall i, j | 0 <= i < |l.events| && 0 <= j < |now| && Gone(l.events[i], now) && !l.seenNew[j] ::
      now[j].ino != l.events[i].ino
    ensures Apart(Pass3(l, now, k).events, had, now)
    decreases |now| - k
  {
    if k < |now| {
      KnownAt(now, k);
      Pass3Apart(Came(l, now, k), had, now, k + 1);
    }
  }

  /** A file that left one name and came under another is never told as gone and as new. */
  lemma MovesTold(had: seq<Entry>, now: seq<Entry>, cookie: U32)
    ensures Apart(Compare(had, now, cookie).events, had, now)
  {
    var l := Unseen(had, now, cookie);
    Pass1Lands(l, had, now, 0);
    var p := Pass1(l, had, now, 0);
    Pass2Lands(p, had, now, 0);
    Pass3Apart(Pass2(p, had, now, 0), had, now, 0);
  }
}
