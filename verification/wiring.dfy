/** Pipes and fds across fork (src/fd.rs, the loop of `start_procs` in src/procs.rs). */
module Wiring {
  import opened Proto
  import opened Spec

  /** What a pipe is made for: the writing fd of a proc that another proc reads, or the capture
      of a proc's fd. */
  datatype Pipe = Between(key: Key) | Captured(key: Key)

  /** What an fd is open to.  `Other` is anything that was open before. */
  datatype Desc =
    | End(pipe: Pipe, write: bool)
    | Temp(key: Key)
    | Opened(path: string)
    | Other(n: nat)

  /** The open fds of a process. */
  type Table = map<int, Desc>

  /** The ends of a pipe that still wait for a proc to connect to. */
  datatype Ends = Ends(read: Option<int>, write: Option<int>)

  datatype Handler =
    | Inherits
    | Closes(fd: int)
    | Dups(fd: int, dupFd: int)
    | OpensFile(fd: int, path: string)
    | WritesTemp(fd: int, fileFd: int)
    | WritesCapture(fd: int, readFd: int, writeFd: int)
    | WritesPipe(fd: int, writeFd: int)
    | ReadsPipe(fd: int, readFd: int)

  const DEV_NULL := "/dev/null"

  /** The writing end between procs that an fd open to `d` holds, if any. */
  function WriteEnd(d: Desc): multiset<Key> {
    if d.End? && d.pipe.Between? && d.write then multiset{d.pipe.key} else multiset{}
  }

  /** The reading end. */
  function ReadEnd(d: Desc): multiset<Key> {
    if d.End? && d.pipe.Between? && !d.write then multiset{d.pipe.key} else multiset{}
  }

  function WriteEnds(ds: seq<Desc>): multiset<Key> {
    if ds == [] then multiset{} else WriteEnds(ds[..|ds| - 1]) + WriteEnd(ds[|ds| - 1])
  }

  function ReadEnds(ds: seq<Desc>): multiset<Key> {
    if ds == [] then multiset{} else ReadEnds(ds[..|ds| - 1]) + ReadEnd(ds[|ds| - 1])
  }

  //----------------------------------------------------------------------------
  // What a proc's spec means

  /** What an fd spec does to the fds of its proc: nothing, if it cannot be carried out. */
  function Apply(p: ProcId, name: FdName, fd: Fd, t: Table, canOpen: string -> bool): Table
    requires ParseFd(name).Some? && (fd.PipeRead? ==> ParseFd(fd.name).Some?)
  {
    var n := ParseFd(name).value;
    match fd
    case Inherit => t
    case Close => t - {n}
    case Null => if canOpen(DEV_NULL) then t[n := Opened(DEV_NULL)] else t
    case File(path) => if canOpen(path) then t[n := Opened(path)] else t
    case Dup(m) => if m in t then t[n := t[m]] else t
    case Capture(TempFile) => t[n := Temp((p, n))]
    case Capture(Memory) => t[n := End(Captured((p, n)), true)]
    case PipeWrite => t[n := End(Between((p, n)), true)]
    case PipeRead(q, source) => t[n := End(Between((q, ParseFd(source).value)), false)]
  }

  /** Whether it can be carried out. */
  predicate Succeeds(name: FdName, fd: Fd, t: Table, canOpen: string -> bool)
    requires ParseFd(name).Some?
  {
    match fd
    case Close => ParseFd(name).value in t
    case Null => canOpen(DEV_NULL)
    case File(path) => canOpen(path)
    case Dup(m) => m == ParseFd(name).value || m in t
    case _ => true
  }

  /** The fds of a proc, given those it inherits: its specs are carried out in order. */
  function Meaning(p: ProcId, fds: Fds, base: Table, canOpen: string -> bool): Table
    requires Parses(fds) && SourcesParse(fds)
  {
    if fds == [] then base
    else
      var last := |fds| - 1;
      Apply(p, fds[last].0, fds[last].1, Meaning(p, fds[..last], base, canOpen), canOpen)
  }

  predicate Works(p: ProcId, fds: Fds, base: Table, canOpen: string -> bool)
    requires Parses(fds) && SourcesParse(fds)
  {
    fds == []
    || var last := |fds| - 1;
       && Works(p, fds[..last], base, canOpen)
       && Succeeds(fds[last].0, fds[last].1, Meaning(p, fds[..last], base, canOpen), canOpen)
  }

  /** The fd whose spec names the writing end that `x` is open to, directly or through `Dup`. */
  function Source(fds: Fds, x: int): Option<RawFd>
    requires Parses(fds)
  {
    if fds == [] then None
    else
      var (name, fd) := fds[|fds| - 1];
      var n := ParseFd(name).value;
      if n != x || fd.Inherit? then Source(fds[..|fds| - 1], x)
      else if fd.PipeWrite? then Some(n)
      else if fd.Dup? then Source(fds[..|fds| - 1], fd.fd)
      else None
  }

  /** A proc holds a writing end exactly where its own spec names it. */
  lemma {:induction false} WriteEndsNamed(p: ProcId, fds: Fds, base: Table, canOpen: string -> bool, x: int, k: Key)
    requires Parses(fds) && SourcesParse(fds) && Works(p, fds, base, canOpen)
    requires forall f :: f in base ==> !(base[f].End? && base[f].pipe.Between?)
    ensures (x in Meaning(p, fds, base, canOpen) && Meaning(p, fds, base, canOpen)[x] == End(Between(k), true))
            <==> (k.0 == p && Source(fds, x) == Some(k.1))
  {
    if fds != [] {
      var last := |fds| - 1;
      WriteEndsNamed(p, fds[..last], base, canOpen, x, k);
      if fds[last].1.Dup? {
        WriteEndsNamed(p, fds[..last], base, canOpen, fds[last].1.fd, k);
      }
    }
  }

  /** The writing end that the spec names for `x` to read from. */
  function ReadSource(fds: Fds, x: int): Option<Key>
    requires Parses(fds) && SourcesParse(fds)
  {
    if fds == [] then None
    else
      var (name, fd) := fds[|fds| - 1];
      if ParseFd(name).value != x || fd.Inherit? then ReadSource(fds[..|fds| - 1], x)
      else if fd.PipeRead? then Some((fd.procId, ParseFd(fd.name).value))
      else if fd.Dup? then ReadSource(fds[..|fds| - 1], fd.fd)
      else None
  }

  /** And a reading end exactly where its own spec names what to read from. */
  lemma {:induction false} ReadEndsNamed(p: ProcId, fds: Fds, base: Table, canOpen: string -> bool, x: int, k: Key)
    requires Parses(fds) && SourcesParse(fds) && Works(p, fds, base, canOpen)
    requires forall f :: f in base ==> !(base[f].End? && base[f].pipe.Between?)
    ensures (x in Meaning(p, fds, base, canOpen) && Meaning(p, fds, base, canOpen)[x] == End(Between(k), false))
            <==> ReadSource(fds, x) == Some(k)
  {
    if fds != [] {
      var last := |fds| - 1;
      ReadEndsNamed(p, fds[..last], base, canOpen, x, k);
      if fds[last].1.Dup? {
        ReadEndsNamed(p, fds[..last], base, canOpen, fds[last].1.fd, k);
      }
    }
  }

  //----------------------------------------------------------------------------
  // What a child is to find, fd by fd

  predicate OpenTo(t: Table, f: int, d: Desc) {
    f in t && t[f] == d
  }

  /** Fd `x` of `t` and fd `y` of `u` are open to the same, or both are not open. */
  predicate Same(t: Table, x: int, u: Table, y: int) {
    (x in t <==> y in u) && (x in t ==> t[x] == u[y])
  }

  /** From `t` to `u`, fd `name` has been attached to what `fd` says. */
  predicate Attached(p: ProcId, name: FdName, fd: Fd, t: Table, u: Table)
    requires ParseFd(name).Some? && (fd.PipeRead? ==> ParseFd(fd.name).Some?)
  {
    var n := ParseFd(name).value;
    match fd
    case Inherit => Same(t, n, u, n)
    case Close => n !in u
    case Null => OpenTo(u, n, Opened("/dev/null"))
    case File(path) => OpenTo(u, n, Opened(path))
    case Dup(m) => Same(t, m, u, n)
    case Capture(TempFile) => OpenTo(u, n, Temp((p, n)))
    case Capture(Memory) => OpenTo(u, n, End(Captured((p, n)), true))
    case PipeWrite => OpenTo(u, n, End(Between((p, n)), true))
    case PipeRead(q, source) => OpenTo(u, n, End(Between((q, ParseFd(source).value)), false))
  }

  lemma ApplyAttached(p: ProcId, name: FdName, fd: Fd, t: Table, canOpen: string -> bool)
    requires ParseFd(name).Some? && (fd.PipeRead? ==> ParseFd(fd.name).Some?)
    ensures Succeeds(name, fd, t, canOpen) ==> Attached(p, name, fd, t, Apply(p, name, fd, t, canOpen))
    ensures forall x :: x != ParseFd(name).value ==> Same(t, x, Apply(p, name, fd, t, canOpen), x)
  {
  }

  /** A spec before the `i`th is about fd `x`. */
  predicate Before(fds: Fds, i: nat, x: int)
    requires Parses(fds) && i <= |fds|
  {
    exists j :: 0 <= j < i && ParseFd(fds[j].0).value == x
  }

  /** No fd of the spec is fd `f`. */
  predicate Silent(spec: Fds, f: int)
    requires Parses(spec)
  {
    forall i :: 0 <= i < |spec| ==> ParseFd(spec[i].0).value != f
  }

  /** Where the `i`th spec finds fd `x`: among the fds of the child, if a spec before has made it, and
      else among those inherited. */
  function Found(fds: Fds, i: nat, x: int, base: Table, t: Table): Table
    requires Parses(fds) && i <= |fds|
  {
    if Before(fds, i, x) then t else base
  }

  /** Whether the `i`th spec can be carried out. */
  predicate Possible(fds: Fds, i: nat, base: Table, t: Table, canOpen: string -> bool)
    requires Parses(fds) && i < |fds|
  {
    var n := ParseFd(fds[i].0).value;
    match fds[i].1
    case Close => n in base
    case Null => canOpen("/dev/null")
    case File(path) => canOpen(path)
    case Dup(m) => m == n || m in Found(fds, i, m, base, t)
    case _ => true
  }

  /** What the `i`th fd is open to. */
  predicate Connected(p: ProcId, fds: Fds, i: nat, base: Table, t: Table)
    requires Parses(fds) && SourcesParse(fds) && i < |fds|
  {
    Attached(p, fds[i].0, fds[i].1, if fds[i].1.Dup? then Found(fds, i, fds[i].1.fd, base, t) else base, t)
  }

  /** A child that has inherited fds `base` has fds `t`: it is ready exactly if all of its specs can be
      carried out, and then every fd is open to what its spec says; no other fd is affected. */
  ghost predicate Wired(p: ProcId, fds: Fds, base: Table, t: Table, ok: bool, canOpen: string -> bool)
    requires Parses(fds) && SourcesParse(fds)
  {
    && (ok <==> forall i :: 0 <= i < |fds| ==> Possible(fds, i, base, t, canOpen))
    && (ok ==> forall i :: 0 <= i < |fds| ==> Connected(p, fds, i, base, t))
    && (forall x :: Silent(fds, x) ==> Same(base, x, t, x))
  }

  /** What no spec from the `i`th on is about is as it was. */
  lemma {:induction false} MeaningFrom(p: ProcId, fds: Fds, base: Table, canOpen: string -> bool, i: nat, x: int)
    requires Parses(fds) && SourcesParse(fds) && i <= |fds|
    requires forall j :: i <= j < |fds| ==> ParseFd(fds[j].0).value != x
    ensures Same(Meaning(p, fds[..i], base, canOpen), x, Meaning(p, fds, base, canOpen), x)
    decreases |fds|
  {
    if i == |fds| {
      assert fds[..i] == fds;
    } else {
      var last := |fds| - 1;
      MeaningFrom(p, fds[..last], base, canOpen, i, x);
      assert fds[..last][..i] == fds[..i];
      ApplyAttached(p, fds[last].0, fds[last].1, Meaning(p, fds[..last], base, canOpen), canOpen);
    }
  }

  /** The `i`th spec can be carried out when its turn comes. */
  predicate SucceedsAt(p: ProcId, fds: Fds, base: Table, canOpen: string -> bool, i: nat)
    requires Parses(fds) && SourcesParse(fds) && i < |fds|
  {
    Succeeds(fds[i].0, fds[i].1, Meaning(p, fds[..i], base, canOpen), canOpen)
  }

  lemma {:induction false} WorksExactly(p: ProcId, fds: Fds, base: Table, canOpen: string -> bool)
    requires Parses(fds) && SourcesParse(fds)
    ensures Works(p, fds, base, canOpen) <==> forall i :: 0 <= i < |fds| ==> SucceedsAt(p, fds, base, canOpen, i)
  {
    if fds != [] {
      var last := |fds| - 1;
      WorksExactly(p, fds[..last], base, canOpen);
      forall i | 0 <= i < last
        ensures SucceedsAt(p, fds[..last], base, canOpen, i) == SucceedsAt(p, fds, base, canOpen, i)
      {
        assert fds[..last][..i] == fds[..i];
      }
      assert SucceedsAt(p, fds, base, canOpen, last)
          == Succeeds(fds[last].0, fds[last].1, Meaning(p, fds[..last], base, canOpen), canOpen);
    }
  }

  /** What the `i`th spec finds of fd `x`, of which no later one is about. */
  lemma FoundSame(p: ProcId, fds: Fds, base: Table, canOpen: string -> bool, i: nat, x: int)
    requires Parses(fds) && SourcesParse(fds) && Distinct(fds) && i <= |fds|
    ensures Same(Meaning(p, fds[..i], base, canOpen), x, Found(fds, i, x, base, Meaning(p, fds, base, canOpen)), x)
  {
    if Before(fds, i, x) {
      var j :| 0 <= j < i && ParseFd(fds[j].0).value == x;
      forall l | i <= l < |fds| ensures ParseFd(fds[l].0).value != x {
        assert ParseFd(fds[j].0) != ParseFd(fds[l].0);
      }
      MeaningFrom(p, fds, base, canOpen, i, x);
    } else {
      MeaningFrom(p, fds[..i], base, canOpen, 0, x);
      assert fds[..i][..0] == [];
    }
  }

  /** The `i`th fd is what its spec says. */
  lemma FdWired(p: ProcId, fds: Fds, base: Table, canOpen: string -> bool, i: nat)
    requires Parses(fds) && SourcesParse(fds) && Distinct(fds) && i < |fds|
    ensures var t := Meaning(p, fds, base, canOpen);
            && SucceedsAt(p, fds, base, canOpen, i) == Possible(fds, i, base, t, canOpen)
            && (SucceedsAt(p, fds, base, canOpen, i) ==> Connected(p, fds, i, base, t))
  {
    var n, next := ParseFd(fds[i].0).value, fds[..i + 1];
    assert next[..i] == fds[..i] && next[i] == fds[i];
    ApplyAttached(p, fds[i].0, fds[i].1, Meaning(p, fds[..i], base, canOpen), canOpen);
    assert !Before(fds, i, n);
    FoundSame(p, fds, base, canOpen, i, n);
    if fds[i].1.Dup? {
      FoundSame(p, fds, base, canOpen, i, fds[i].1.fd);
    }
    forall j | i + 1 <= j < |fds| ensures ParseFd(fds[j].0).value != n {
      assert ParseFd(fds[i].0) != ParseFd(fds[j].0);
    }
    MeaningFrom(p, fds, base, canOpen, i + 1, n);
  }

  lemma MeaningWired(p: ProcId, fds: Fds, base: Table, canOpen: string -> bool)
    requires Parses(fds) && SourcesParse(fds) && Distinct(fds)
    ensures Wired(p, fds, base, Meaning(p, fds, base, canOpen), Works(p, fds, base, canOpen), canOpen)
  {
    var t := Meaning(p, fds, base, canOpen);
    WorksExactly(p, fds, base, canOpen);
    forall i | 0 <= i < |fds|
      ensures SucceedsAt(p, fds, base, canOpen, i) == Possible(fds, i, base, t, canOpen)
      ensures Possible(fds, i, base, t, canOpen) ==> Connected(p, fds, i, base, t)
    {
      FdWired(p, fds, base, canOpen, i);
    }
    forall x | Silent(fds, x) ensures Same(base, x, t, x) {
      MeaningFrom(p, fds, base, canOpen, 0, x);
      assert fds[..0] == [];
    }
  }

  //----------------------------------------------------------------------------
  // Handlers

  /** The fds of the agent that a handler holds for its proc. */
  function Private(h: Handler): set<int> {
    match h
    case WritesTemp(_, f) => {f}
    case WritesCapture(_, r, w) => {r, w}
    case WritesPipe(_, w) => {w}
    case ReadsPipe(_, r) => {r}
    case _ => {}
  }

  function Privates(hs: seq<Handler>): set<int> {
    if hs == [] then {} else Private(hs[0]) + Privates(hs[1..])
  }

  /** `h` is a handler of an fd spec, and its fds are open in `t` to what they should be. */
  predicate Handles(h: Handler, p: ProcId, name: FdName, fd: Fd, t: Table)
    requires ParseFd(name).Some? && (fd.PipeRead? ==> ParseFd(fd.name).Some?)
  {
    var n := ParseFd(name).value;
    match fd
    case Inherit => h == Inherits
    case Close => h == Closes(n)
    case Null => h == OpensFile(n, DEV_NULL)
    case File(path) => h == OpensFile(n, path)
    case Dup(m) => h == Dups(n, m)
    case Capture(TempFile) => h.WritesTemp? && h.fd == n && OpenTo(t, h.fileFd, Temp((p, n)))
    case Capture(Memory) =>
      && h.WritesCapture? && h.fd == n
      && OpenTo(t, h.readFd, End(Captured((p, n)), false)) && OpenTo(t, h.writeFd, End(Captured((p, n)), true))
    case PipeWrite => h.WritesPipe? && h.fd == n && OpenTo(t, h.writeFd, End(Between((p, n)), true))
    case PipeRead(q, source) =>
      h.ReadsPipe? && h.fd == n && OpenTo(t, h.readFd, End(Between((q, ParseFd(source).value)), false))
  }

  ghost predicate AllHandle(hs: seq<Handler>, p: ProcId, fds: Fds, t: Table)
    requires Parses(fds) && SourcesParse(fds)
  {
    |hs| == |fds| && forall i :: 0 <= i < |hs| ==> Handles(hs[i], p, fds[i].0, fds[i].1, t)
  }

  /** No fd is held twice. */
  ghost predicate Apart(hs: seq<Handler>) {
    forall i, j :: 0 <= i < j < |hs| ==> Private(hs[i]) !! Private(hs[j])
  }

  /** The fds of the ends that wait. */
  function Waiting(ends: map<Key, Ends>): set<int> {
    (set k | k in ends && ends[k].read.Some? :: ends[k].read.value)
    + (set k | k in ends && ends[k].write.Some? :: ends[k].write.value)
  }

  /** They are open to what they should be. */
  predicate Held(ends: map<Key, Ends>, t: Table) {
    forall k :: k in ends ==>
      && (ends[k].read.Some? ==> OpenTo(t, ends[k].read.value, End(Between(k), false)))
      && (ends[k].write.Some? ==> OpenTo(t, ends[k].write.value, End(Between(k), true)))
  }

  /** The pipes whose reading, or writing, end has been connected. */
  function ReadTaken(ends: map<Key, Ends>): set<Key> {
    set k | k in ends && ends[k].read.None?
  }

  function WriteTaken(ends: map<Key, Ends>): set<Key> {
    set k | k in ends && ends[k].write.None?
  }

  lemma {:induction false} PrivatesMember(hs: seq<Handler>, f: int)
    ensures f in Privates(hs) <==> exists i :: 0 <= i < |hs| && f in Private(hs[i])
  {
    if hs != [] {
      PrivatesMember(hs[1..], f);
      if f in Privates(hs) && f !in Private(hs[0]) {
        var i :| 0 <= i < |hs[1..]| && f in Private(hs[1..][i]);
        assert f in Private(hs[i + 1]);
      }
      if i :| 0 <= i < |hs| && f in Private(hs[i]) {
        assert i > 0 ==> f in Private(hs[1..][i - 1]);
      }
    }
  }

  lemma {:induction false} PrivatesAppend(hs: seq<Handler>, h: Handler)
    ensures Privates(hs + [h]) == Privates(hs) + Private(h)
  {
    if hs != [] {
      PrivatesAppend(hs[1..], h);
      assert (hs + [h])[1..] == hs[1..] + [h];
    } else {
      assert [h][1..] == [];
    }
  }

  /** Connecting an end that waits: it waits no more. */
  lemma TakenRead(ends: map<Key, Ends>, t: Table, k: Key)
    requires Held(ends, t) && k in ends && ends[k].read.Some?
    ensures var e := ends[k := ends[k].(read := None)];
            var f := ends[k].read.value;
            && Held(e, t) && Waiting(e) + {f} == Waiting(ends) && f !in Waiting(e)
            && ReadTaken(e) == ReadTaken(ends) + {k} && WriteTaken(e) == WriteTaken(ends)
  {
    var e := ends[k := ends[k].(read := None)];
    assert forall q :: q in e && q != k ==> e[q] == ends[q];
    forall f | f in Waiting(ends) && f != ends[k].read.value ensures f in Waiting(e) {
      if q :| q in ends && ends[q].read == Some(f) {
        assert e[q].read == Some(f);
      } else {
        var q :| q in ends && ends[q].write == Some(f);
        assert e[q].write == Some(f);
      }
    }
  }

  lemma TakenWrite(ends: map<Key, Ends>, t: Table, k: Key)
    requires Held(ends, t) && k in ends && ends[k].write.Some?
    ensures var e := ends[k := ends[k].(write := None)];
            var f := ends[k].write.value;
            && Held(e, t) && Waiting(e) + {f} == Waiting(ends) && f !in Waiting(e)
            && WriteTaken(e) == WriteTaken(ends) + {k} && ReadTaken(e) == ReadTaken(ends)
  {
    var e := ends[k := ends[k].(write := None)];
    assert forall q :: q in e && q != k ==> e[q] == ends[q];
    forall f | f in Waiting(ends) && f != ends[k].write.value ensures f in Waiting(e) {
      if q :| q in ends && ends[q].write == Some(f) {
        assert e[q].write == Some(f);
      } else {
        var q :| q in ends && ends[q].read == Some(f);
        assert e[q].read == Some(f);
      }
    }
  }

  /** A new pipe, of which one end waits. */
  lemma NewPipe(ends: map<Key, Ends>, k: Key, e: Ends)
    requires k !in ends && e.read.None? != e.write.None?
    ensures var f := if e.read.Some? then e.read.value else e.write.value;
            Waiting(ends[k := e]) == Waiting(ends) + {f}
    ensures ReadTaken(ends[k := e]) == ReadTaken(ends) + if e.read.None? then {k} else {}
    ensures WriteTaken(ends[k := e]) == WriteTaken(ends) + if e.write.None? then {k} else {}
  {
    var e1 := ends[k := e];
    assert forall q :: q in ends ==> e1[q] == ends[q];
    assert e1[k] == e;
    forall f | f in Waiting(ends) ensures f in Waiting(e1) {
      if q :| q in ends && ends[q].read == Some(f) {
        assert e1[q].read == Some(f);
      } else {
        var q :| q in ends && ends[q].write == Some(f);
        assert e1[q].write == Some(f);
      }
    }
  }

  lemma HeldOpen(ends: map<Key, Ends>, t: Table)
    requires Held(ends, t)
    ensures Waiting(ends) <= t.Keys
  {
  }

  /** The ends of other pipes do not matter. */
  lemma HeldKept(ends: map<Key, Ends>, t: Table, u: Table)
    requires Held(ends, t) && forall f :: f in Waiting(ends) ==> OpenTo(u, f, t[f])
    ensures Held(ends, u)
  {
    forall k | k in ends
      ensures ends[k].read.Some? ==> OpenTo(u, ends[k].read.value, End(Between(k), false))
      ensures ends[k].write.Some? ==> OpenTo(u, ends[k].write.value, End(Between(k), true))
    {
      assert ends[k].read.Some? ==> ends[k].read.value in Waiting(ends);
      assert ends[k].write.Some? ==> ends[k].write.value in Waiting(ends);
    }
  }

  /** From `t` to `u` only fds have been opened, none of `avoid`; of these and of the ends that
      waited, `taken` wait no more. */
  ghost predicate Takes(t: Table, ends: map<Key, Ends>, u: Table, ends1: map<Key, Ends>, taken: set<int>,
      avoid: set<int>) {
    && (forall f :: f in t ==> OpenTo(u, f, t[f]))
    && (u.Keys - t.Keys) !! avoid
    && Held(ends1, u)
    && Waiting(ends1) + taken == Waiting(ends) + (u.Keys - t.Keys)
    && Waiting(ends1) !! taken
  }

  /** Opening fds that do not wait. */
  lemma TakesOpened(t: Table, ends: map<Key, Ends>, u: Table, news: set<int>, avoid: set<int>)
    requires Held(ends, t) && news !! t.Keys && news !! avoid
    requires u.Keys == t.Keys + news && forall f :: f in t ==> OpenTo(u, f, t[f])
    ensures Takes(t, ends, u, ends, news, avoid)
  {
    HeldOpen(ends, t);
    HeldKept(ends, t, u);
    assert u.Keys - t.Keys == news;
  }

  lemma KeysKept(t: Table, u: Table)
    requires forall f :: f in t ==> OpenTo(u, f, t[f])
    ensures t.Keys <= u.Keys
  {
    forall f | f in t.Keys ensures f in u.Keys {
      assert OpenTo(u, f, t[f]);
    }
  }

  lemma TakesThen(t: Table, e: map<Key, Ends>, u: Table, e1: map<Key, Ends>, taken1: set<int>,
                  v: Table, e2: map<Key, Ends>, taken2: set<int>, avoid: set<int>)
    requires Held(e, t) && Takes(t, e, u, e1, taken1, avoid) && Takes(u, e1, v, e2, taken2, avoid)
    ensures Takes(t, e, v, e2, taken1 + taken2, avoid) && taken1 !! taken2 && taken1 <= u.Keys
  {
    HeldOpen(e, t);
    HeldOpen(e1, u);
    KeysKept(t, u);
    KeysKept(u, v);
    forall f | f in t ensures OpenTo(v, f, t[f]) {
      assert OpenTo(u, f, t[f]);
    }
    TakenSum(t.Keys, u.Keys, v.Keys, Waiting(e), Waiting(e1), Waiting(e2), taken1, taken2);
    NewSum(t.Keys, u.Keys, v.Keys, avoid);
  }

  lemma TakenSum(t: set<int>, u: set<int>, v: set<int>, w: set<int>, w1: set<int>, w2: set<int>, a: set<int>,
      b: set<int>)
    requires t <= u <= v && w <= t && w1 <= u
    requires w1 + a == w + (u - t) && w1 !! a && w2 + b == w1 + (v - u) && w2 !! b
    ensures w2 + (a + b) == w + (v - t) && w2 !! a + b && a !! b && a <= u
  {
    assert forall f :: f in w2 + (a + b) <==> f in w + (v - t);
  }

  lemma NewSum(t: set<int>, u: set<int>, v: set<int>, avoid: set<int>)
    requires (u - t) !! avoid && (v - u) !! avoid
    ensures (v - t) !! avoid
  {
  }

  /** What is neither taken nor waits is what was there and did not wait. */
  lemma TakesQuiet(t: Table, e: map<Key, Ends>, u: Table, e1: map<Key, Ends>, taken: set<int>, avoid: set<int>)
    requires Held(e, t) && Takes(t, e, u, e1, taken, avoid)
    ensures u - (Waiting(e1) + taken) == t - Waiting(e)
  {
    HeldOpen(e, t);
    KeysKept(t, u);
    var left := u - (Waiting(e1) + taken);
    forall f ensures f in left <==> f in t - Waiting(e) {
      assert f in Waiting(e1) + taken <==> f in Waiting(e) + (u.Keys - t.Keys);
    }
    forall f | f in left ensures left[f] == t[f] {
      assert OpenTo(u, f, t[f]);
    }
  }

  /** Handlers still handle when fds are only opened. */
  lemma HandlesKept(h: Handler, p: ProcId, name: FdName, fd: Fd, t: Table, u: Table)
    requires ParseFd(name).Some? && (fd.PipeRead? ==> ParseFd(fd.name).Some?)
    requires Handles(h, p, name, fd, t) && forall f :: f in Private(h) && f in t ==> OpenTo(u, f, t[f])
    ensures Handles(h, p, name, fd, u)
  {
  }

  function Elements<T>(m: multiset<T>): set<T> {
    set x | x in m
  }

  /** The pipes that an fd needs to be made, or to have been. */
  function CaptureOf(p: ProcId, name: FdName, fd: Fd): set<Pipe> {
    if fd == Capture(Memory) && ParseFd(name).Some? then {Captured((p, ParseFd(name).value))} else {}
  }

  /** Every end of `m` is asked for once, and has not been taken. */
  ghost predicate Fits(m: multiset<Key>, taken: set<Key>) {
    forall k :: k in m ==> m[k] == 1 && k !in taken
  }

  lemma FitsNext(m: multiset<Key>, taken: set<Key>, a: multiset<Key>, b: multiset<Key>)
    requires Fits(m, taken) && a + b <= m
    ensures Elements(b) !! taken + Elements(a)
    ensures Elements(a + b) == Elements(a) + Elements(b)
  {
    forall k | k in b ensures k !in taken + Elements(a) {
      assert m[k] >= a[k] + b[k];
    }
  }

  lemma FitsSpec(p: ProcId, fds: Fds, i: nat, written: set<Key>, read: set<Key>)
    requires i < |fds| && Fits(WritesOf(p, fds), written) && Fits(ReadsOf(fds), read)
    ensures Elements(WriteOf(p, fds[i].0, fds[i].1)) !! written + Elements(WritesOf(p, fds[..i]))
    ensures Elements(ReadOf(fds[i].1)) !! read + Elements(ReadsOf(fds[..i]))
    ensures Elements(WritesOf(p, fds[..i + 1]))
         == Elements(WritesOf(p, fds[..i])) + Elements(WriteOf(p, fds[i].0, fds[i].1))
    ensures Elements(ReadsOf(fds[..i + 1])) == Elements(ReadsOf(fds[..i])) + Elements(ReadOf(fds[i].1))
  {
    assert fds[..i + 1][..i] == fds[..i];
    WritesOfPrefix(p, fds, i + 1);
    ReadsOfPrefix(fds, i + 1);
    FitsNext(WritesOf(p, fds), written, WritesOf(p, fds[..i]), WriteOf(p, fds[i].0, fds[i].1));
    FitsNext(ReadsOf(fds), read, ReadsOf(fds[..i]), ReadOf(fds[i].1));
  }

  /** One more handler. */
  lemma HandlersAppend(hs: seq<Handler>, h: Handler, p: ProcId, fds: Fds, t: Table, u: Table)
    requires Parses(fds) && SourcesParse(fds) && |hs| < |fds|
    requires AllHandle(hs, p, fds[..|hs|], t)
    requires Handles(h, p, fds[|hs|].0, fds[|hs|].1, u) && forall f :: f in t ==> OpenTo(u, f, t[f])
    ensures AllHandle(hs + [h], p, fds[..|hs| + 1], u)
  {
    forall i | 0 <= i < |hs| ensures Handles(hs[i], p, fds[i].0, fds[i].1, u) {
      assert Handles(hs[i], p, fds[..|hs|][i].0, fds[..|hs|][i].1, t);
      HandlesKept(hs[i], p, fds[i].0, fds[i].1, t, u);
    }
  }

  lemma ApartAppend(hs: seq<Handler>, h: Handler)
    requires Apart(hs) && Privates(hs) !! Private(h)
    ensures Apart(hs + [h])
  {
    forall i | 0 <= i < |hs| ensures Private(hs[i]) !! Private(h) {
      forall f | f in Private(hs[i]) ensures f in Privates(hs) {
        PrivatesMember(hs, f);
      }
    }
  }

  /** The fds of a process, and what it knows of pipes. */
  datatype Pipework = Pipework(fds: Table, ends: map<Key, Ends>, made: set<Pipe>)

  /** The ends that wait are open, and their pipes are those made for procs. */
  ghost predicate Sound(s: Pipework) {
    Held(s.ends, s.fds) && forall k :: Between(k) in s.made <==> k in s.ends
  }

  /** From `s` to `s1`, the ends `written` and `read` have been connected. */
  ghost predicate Connects(s: Pipework, s1: Pipework, written: set<Key>, read: set<Key>) {
    && Sound(s1)
    && WriteTaken(s1.ends) == WriteTaken(s.ends) + written
    && ReadTaken(s1.ends) == ReadTaken(s.ends) + read
    && s1.ends.Keys == s.ends.Keys + written + read
  }

  lemma ConnectsThen(s: Pipework, s1: Pipework, s2: Pipework, w1: set<Key>, r1: set<Key>, w2: set<Key>, r2: set<Key>)
    requires Connects(s, s1, w1, r1) && Connects(s1, s2, w2, r2)
    ensures Connects(s, s2, w1 + w2, r1 + r2)
  {
  }

  /** Handler `h` of an fd of `p` has been made. */
  ghost predicate MadeOne(p: ProcId, name: FdName, fd: Fd, s: Pipework, s1: Pipework, h: Handler, avoid: set<int>)
    requires ParseFd(name).Some? && (fd.PipeRead? ==> ParseFd(fd.name).Some?)
  {
    && Handles(h, p, name, fd, s1.fds)
    && Takes(s.fds, s.ends, s1.fds, s1.ends, Private(h), avoid)
    && Connects(s, s1, Elements(WriteOf(p, name, fd)), Elements(ReadOf(fd)))
    && forall k :: Captured(k) in s1.made <==> Captured(k) in s.made + CaptureOf(p, name, fd)
  }

  /** Handlers `hs` of the first fds of `p` have been made. */
  ghost predicate MadeSome(p: ProcId, fds: Fds, hs: seq<Handler>, s: Pipework, s1: Pipework, avoid: set<int>)
    requires Parses(fds) && SourcesParse(fds)
  {
    && |hs| <= |fds|
    && AllHandle(hs, p, fds[..|hs|], s1.fds) && Apart(hs)
    && Takes(s.fds, s.ends, s1.fds, s1.ends, Privates(hs), avoid)
    && Connects(s, s1, Elements(WritesOf(p, fds[..|hs|])), Elements(ReadsOf(fds[..|hs|])))
    && CapturesOf(p, fds[..|hs|], s.made, s1.made)
  }

  /** The captures among `made1` are those of `made` and of fds of `p`. */
  ghost predicate CapturesOf(p: ProcId, fds: Fds, made: set<Pipe>, made1: set<Pipe>) {
    forall k :: Captured(k) in made1 ==>
      Captured(k) in made || (k.0 == p && exists j :: 0 <= j < |fds| && ParseFd(fds[j].0) == Some(k.1))
  }

  lemma CapturesNext(p: ProcId, fds: Fds, i: nat, made: set<Pipe>, made1: set<Pipe>, made2: set<Pipe>)
    requires i < |fds| && Parses(fds) && CapturesOf(p, fds[..i], made, made1)
    requires forall k :: Captured(k) in made2 <==> Captured(k) in made1 + CaptureOf(p, fds[i].0, fds[i].1)
    ensures CapturesOf(p, fds[..i + 1], made, made2)
  {
    var some := fds[..i + 1];
    forall k | Captured(k) in made2 && Captured(k) !in made
      ensures k.0 == p && exists j :: 0 <= j < i + 1 && ParseFd(some[j].0) == Some(k.1)
    {
      if Captured(k) in made1 {
        var j :| 0 <= j < i && ParseFd(fds[..i][j].0) == Some(k.1);
        assert some[j] == fds[..i][j];
      } else {
        assert some[i] == fds[i];
      }
    }
  }

  /** No fd of `p` is captured before its handler is made. */
  lemma CaptureNew(p: ProcId, fds: Fds, i: nat, made: set<Pipe>, made1: set<Pipe>)
    requires i < |fds| && Parses(fds) && Distinct(fds) && CapturesOf(p, fds[..i], made, made1)
    requires forall n :: Captured((p, n)) !in made
    ensures CaptureOf(p, fds[i].0, fds[i].1) !! made1
  {
    forall j | 0 <= j < i ensures ParseFd(fds[..i][j].0) != ParseFd(fds[i].0) {
      assert fds[..i][j] == fds[j];
    }
  }

  lemma MadeNext(p: ProcId, fds: Fds, hs: seq<Handler>, s: Pipework, s1: Pipework, h: Handler, s2: Pipework,
      avoid: set<int>)
    requires Parses(fds) && SourcesParse(fds) && |hs| < |fds| && Sound(s)
    requires Fits(WritesOf(p, fds), WriteTaken(s.ends)) && Fits(ReadsOf(fds), ReadTaken(s.ends))
    requires MadeSome(p, fds, hs, s, s1, avoid) && MadeOne(p, fds[|hs|].0, fds[|hs|].1, s1, s2, h, avoid)
    ensures MadeSome(p, fds, hs + [h], s, s2, avoid)
  {
    var i := |hs|;
    TakesThen(s.fds, s.ends, s1.fds, s1.ends, Privates(hs), s2.fds, s2.ends, Private(h), avoid);
    PrivatesAppend(hs, h);
    FitsSpec(p, fds, i, WriteTaken(s.ends), ReadTaken(s.ends));
    ConnectsThen(s, s1, s2, Elements(WritesOf(p, fds[..i])), Elements(ReadsOf(fds[..i])),
                 Elements(WriteOf(p, fds[i].0, fds[i].1)), Elements(ReadOf(fds[i].1)));
    CapturesNext(p, fds, i, s.made, s1.made, s2.made);
    HandlersAppend(hs, h, p, fds, s1.fds, s2.fds);
    ApartAppend(hs, h);
  }

  //----------------------------------------------------------------------------
  // In the child

  /** The fds that `spec` is about are all in `targets`. */
  ghost predicate Targets(spec: Fds, targets: set<int>)
    requires Parses(spec)
  {
    forall i :: 0 <= i < |spec| ==>
      ParseFd(spec[i].0).value in targets && (spec[i].1.Dup? ==> spec[i].1.fd in targets)
  }

  /** What is hidden from a spec does not matter to it. */
  lemma ApplyHidden(p: ProcId, name: FdName, fd: Fd, t: Table, canOpen: string -> bool, hidden: set<int>)
    requires ParseFd(name).Some? && (fd.PipeRead? ==> ParseFd(fd.name).Some?)
    requires ParseFd(name).value !in hidden && (fd.Dup? ==> fd.fd !in hidden)
    ensures Apply(p, name, fd, t, canOpen) - hidden == Apply(p, name, fd, t - hidden, canOpen)
    ensures Succeeds(name, fd, t, canOpen) == Succeeds(name, fd, t - hidden, canOpen)
    ensures forall f :: f in hidden && f in t ==> OpenTo(Apply(p, name, fd, t, canOpen), f, t[f])
  {
  }

  /** Handlers `i..` have not run yet; without their fds and the ends that wait, the fds are what
      the first `i` specs mean. */
  ghost predicate ChildRun(p: ProcId, spec: Fds, hs: seq<Handler>, i: nat, ends: map<Key, Ends>, base: Table,
      t: Table, ok: bool,
                           canOpen: string -> bool)
    requires Parses(spec) && SourcesParse(spec)
  {
    && i <= |spec| == |hs|
    && Held(ends, t)
    && (forall j :: i <= j < |hs| ==> Handles(hs[j], p, spec[j].0, spec[j].1, t))
    && t - (Waiting(ends) + Privates(hs[i..])) == Meaning(p, spec[..i], base, canOpen)
    && ok == Works(p, spec[..i], base, canOpen)
  }

  /** The handler of fd `i` has run. */
  lemma ChildNext(p: ProcId, spec: Fds, hs: seq<Handler>, i: nat, ends: map<Key, Ends>, base: Table, t: Table, ok: bool,
                  canOpen: string -> bool, targets: set<int>)
    requires Parses(spec) && SourcesParse(spec) && Targets(spec, targets) && Apart(hs) && i < |spec|
    requires ChildRun(p, spec, hs, i, ends, base, t, ok, canOpen)
    requires Privates(hs) !! Waiting(ends) && targets !! Waiting(ends) + Privates(hs)
    ensures ChildRun(p, spec, hs, i + 1, ends, base, Apply(p, spec[i].0, spec[i].1, t - Private(hs[i]), canOpen),
                     ok && Succeeds(spec[i].0, spec[i].1, t, canOpen), canOpen)
  {
    var u := Apply(p, spec[i].0, spec[i].1, t - Private(hs[i]), canOpen);
    var hidden := Waiting(ends) + Privates(hs[i + 1..]);
    RestApart(hs, i);
    HeldOpen(ends, t);
    assert Waiting(ends) + Privates(hs[i..]) == Private(hs[i]) + hidden;
    ApplyHidden(p, spec[i].0, spec[i].1, t - Private(hs[i]), canOpen, hidden);
    ChildMeans(p, spec, i, base, t, Private(hs[i]), hidden, ok, canOpen);
    ChildRest(p, spec, hs, i, ends, t, u);
  }

  /** What is hidden from handler `i` is as it was. */
  lemma ChildRest(p: ProcId, spec: Fds, hs: seq<Handler>, i: nat, ends: map<Key, Ends>, t: Table, u: Table)
    requires Parses(spec) && SourcesParse(spec) && i < |spec| == |hs| && Held(ends, t)
    requires forall j :: i <= j < |hs| ==> Handles(hs[j], p, spec[j].0, spec[j].1, t)
    requires forall f :: f in Waiting(ends) + Privates(hs[i + 1..]) && f in t ==> OpenTo(u, f, t[f])
    ensures Held(ends, u) && forall j :: i + 1 <= j < |hs| ==> Handles(hs[j], p, spec[j].0, spec[j].1, u)
  {
    HeldOpen(ends, t);
    HeldKept(ends, t, u);
    forall j | i + 1 <= j < |hs| ensures Handles(hs[j], p, spec[j].0, spec[j].1, u) {
      RestMember(hs, i + 1, j);
      HandlesKept(hs[j], p, spec[j].0, spec[j].1, t, u);
    }
  }

  lemma ChildMeans(p: ProcId, spec: Fds, i: nat, base: Table, t: Table, private: set<int>, hidden: set<int>, ok: bool,
                   canOpen: string -> bool)
    requires Parses(spec) && SourcesParse(spec) && i < |spec|
    requires ParseFd(spec[i].0).value !in private + hidden && (spec[i].1.Dup? ==> spec[i].1.fd !in private + hidden)
    requires t - (private + hidden) == Meaning(p, spec[..i], base, canOpen) && ok == Works(p, spec[..i], base, canOpen)
    ensures Apply(p, spec[i].0, spec[i].1, t - private, canOpen) - hidden == Meaning(p, spec[..i + 1], base, canOpen)
    ensures (ok && Succeeds(spec[i].0, spec[i].1, t, canOpen)) == Works(p, spec[..i + 1], base, canOpen)
  {
    var next := spec[..i + 1];
    assert next[..i] == spec[..i] && next[i] == spec[i];
    ApplyHidden(p, spec[i].0, spec[i].1, t - private, canOpen, hidden);
    ApplyHidden(p, spec[i].0, spec[i].1, t, canOpen, private + hidden);
    assert t - (private + hidden) == t - private - hidden;
  }

  lemma RestMember(hs: seq<Handler>, i: nat, j: nat)
    requires i <= j < |hs|
    ensures Private(hs[j]) <= Privates(hs[i..])
  {
    forall f | f in Private(hs[j]) ensures f in Privates(hs[i..]) {
      PrivatesMember(hs[i..], f);
      assert hs[i..][j - i] == hs[j];
    }
  }

  /** The fds of the handlers from `i` on: those of handler `i` and the rest. */
  lemma RestApart(hs: seq<Handler>, i: nat)
    requires i < |hs| && Apart(hs)
    ensures Privates(hs[i..]) == Private(hs[i]) + Privates(hs[i + 1..])
    ensures Private(hs[i]) !! Privates(hs[i + 1..]) && Privates(hs[i..]) <= Privates(hs)
  {
    assert hs[i..][1..] == hs[i + 1..];
    forall f | f in Privates(hs[i..])
      ensures f in Privates(hs) && (f in Privates(hs[i + 1..]) ==> f !in Private(hs[i]))
    {
      PrivatesMember(hs[i..], f);
      PrivatesMember(hs[i + 1..], f);
      PrivatesMember(hs, f);
    }
  }

  function FdsOf(e: Ends): set<int> {
    (if e.read.Some? then {e.read.value} else {}) + (if e.write.Some? then {e.write.value} else {})
  }

  /** The ends that wait for other pipes than those of `k`. */
  lemma WaitingWithout(ends: map<Key, Ends>, t: Table, k: Key)
    requires Held(ends, t) && k in ends
    ensures Waiting(ends) == Waiting(ends - {k}) + FdsOf(ends[k]) && Waiting(ends - {k}) !! FdsOf(ends[k])
    ensures ends[k].read.Some? && ends[k].write.Some? ==> ends[k].read.value != ends[k].write.value
    ensures Held(ends - {k}, t)
  {
    var rest := ends - {k};
    assert forall q :: q in rest ==> rest[q] == ends[q];
    forall f | f in Waiting(rest) ensures f in Waiting(ends) {
      if q :| q in rest && rest[q].read == Some(f) {
        assert ends[q].read == Some(f);
      } else {
        var q :| q in rest && rest[q].write == Some(f);
        assert ends[q].write == Some(f);
      }
    }
    forall f | f in Waiting(ends) ensures f in Waiting(rest) || f in FdsOf(ends[k]) {
      if q :| q in ends && ends[q].read == Some(f) {
        if q != k {
          assert rest[q].read == Some(f);
        }
      } else {
        var q :| q in ends && ends[q].write == Some(f);
        if q != k {
          assert rest[q].write == Some(f);
        }
      }
    }
  }

  /** Of the ends that waited when the fds were `t0`, all but those in `rest` have been closed. */
  ghost predicate Closing(t0: Table, ends: map<Key, Ends>, rest: map<Key, Ends>, t: Table, count: nat) {
    && Held(rest, t) && Waiting(rest) <= Waiting(ends)
    && t == t0 - (Waiting(ends) - Waiting(rest)) && count + |Waiting(rest)| == |Waiting(ends)|
  }

  lemma ClosingFirst(t: Table, ends: map<Key, Ends>)
    requires Held(ends, t)
    ensures Closing(t, ends, ends, t, 0)
  {
    assert t == t - (Waiting(ends) - Waiting(ends));
  }

  lemma ClosingLast(t0: Table, ends: map<Key, Ends>, t: Table, count: nat)
    requires Closing(t0, ends, map[], t, count)
    ensures t == t0 - Waiting(ends) && count == |Waiting(ends)|
  {
    assert Waiting(map[]) == {};
  }

  lemma ClosingNext(t0: Table, ends: map<Key, Ends>, rest: map<Key, Ends>, t: Table, count: nat, k: Key)
    requires Closing(t0, ends, rest, t, count) && k in rest
    ensures Closing(t0, ends, rest - {k}, t - FdsOf(rest[k]), count + |FdsOf(rest[k])|)
    ensures rest[k].read.Some? ==> rest[k].read.value in t
    ensures rest[k].write.Some? ==> rest[k].write.value in t && rest[k].read != rest[k].write
  {
    WaitingWithout(rest, t, k);
    HeldKept(rest - {k}, t, t - FdsOf(rest[k])) by { HeldOpen(rest - {k}, t); }
    CloseSome(t0, Waiting(ends), Waiting(rest), Waiting(rest - {k}), FdsOf(rest[k]));
  }

  lemma CloseSome(t: Table, all: set<int>, rest: set<int>, rest1: set<int>, mine: set<int>)
    requires rest == rest1 + mine && rest1 !! mine && rest <= all
    ensures t - (all - rest) - mine == t - (all - rest1) && |rest| == |rest1| + |mine| && rest1 <= all
  {
  }

  //----------------------------------------------------------------------------
  // In the parent

  /** The fds that `in_parent` closes. */
  function Shut(h: Handler): set<int> {
    match h
    case WritesCapture(_, _, w) => {w}
    case WritesPipe(_, w) => {w}
    case ReadsPipe(_, r) => {r}
    case _ => {}
  }

  function Shuts(hs: seq<Handler>): set<int> {
    if hs == [] then {} else Shuts(hs[..|hs| - 1]) + Shut(hs[|hs| - 1])
  }

  /** Between `before` and `after`, the ends of `written` and `read` have been closed, and no
      other ends of pipes between procs. */
  ghost predicate Tally(before: seq<Desc>, after: seq<Desc>, written: multiset<Key>, read: multiset<Key>) {
    WriteEnds(after) == WriteEnds(before) + written && ReadEnds(after) == ReadEnds(before) + read
  }

  lemma TallyOne(c: seq<Desc>, d: Desc)
    ensures Tally(c, c + [d], WriteEnd(d), ReadEnd(d))
  {
    assert (c + [d])[..|c|] == c;
  }

  lemma TallyThen(procs: seq<ProcSpec>, i: nat, c: seq<Desc>, c1: seq<Desc>)
    requires i < |procs| && Tally([], c, Writes(procs[..i]), Reads(procs[..i]))
    requires Tally(c, c1, WritesOf(procs[i].procId, procs[i].fds), ReadsOf(procs[i].fds))
    ensures Tally([], c1, Writes(procs[..i + 1]), Reads(procs[..i + 1]))
  {
    var next := procs[..i + 1];
    assert next[..i] == procs[..i] && next[i] == procs[i];
    assert Writes(next) == Writes(procs[..i]) + WritesOf(procs[i].procId, procs[i].fds);
    assert Reads(next) == Reads(procs[..i]) + ReadsOf(procs[i].fds);
    TallySum([], c, c1, Writes(procs[..i]), Reads(procs[..i]),
             WritesOf(procs[i].procId, procs[i].fds), ReadsOf(procs[i].fds));
  }

  lemma TallyNext(p: ProcId, spec: Fds, i: nat, c0: seq<Desc>, c: seq<Desc>, c1: seq<Desc>)
    requires i < |spec| && Tally(c0, c, WritesOf(p, spec[..i]), ReadsOf(spec[..i]))
    requires Tally(c, c1, WriteOf(p, spec[i].0, spec[i].1), ReadOf(spec[i].1))
    ensures Tally(c0, c1, WritesOf(p, spec[..i + 1]), ReadsOf(spec[..i + 1]))
  {
    var next := spec[..i + 1];
    assert next[..i] == spec[..i] && next[i] == spec[i];
    assert WritesOf(p, next) == WritesOf(p, spec[..i]) + WriteOf(p, spec[i].0, spec[i].1);
    assert ReadsOf(next) == ReadsOf(spec[..i]) + ReadOf(spec[i].1);
    TallySum(c0, c, c1, WritesOf(p, spec[..i]), ReadsOf(spec[..i]),
             WriteOf(p, spec[i].0, spec[i].1), ReadOf(spec[i].1));
  }

  lemma TallySum(c0: seq<Desc>, c: seq<Desc>, c1: seq<Desc>, w: multiset<Key>, r: multiset<Key>, w1: multiset<Key>,
      r1: multiset<Key>)
    requires Tally(c0, c, w, r) && Tally(c, c1, w1, r1)
    ensures Tally(c0, c1, w + w1, r + r1)
  {
  }

  /** `in_parent` closes the end that an fd spec asks for, if any. */
  lemma ShutsEnd(h: Handler, p: ProcId, name: FdName, fd: Fd, t: Table)
    requires ParseFd(name).Some? && (fd.PipeRead? ==> ParseFd(fd.name).Some?)
    requires Handles(h, p, name, fd, t)
    ensures Shut(h) == {} ==> WriteOf(p, name, fd) == multiset{} && ReadOf(fd) == multiset{}
    ensures forall f :: f in Shut(h) ==>
              f in t && t[f].End? && WriteOf(p, name, fd) == WriteEnd(t[f]) && ReadOf(fd) == ReadEnd(t[f])
  {
  }

  /** What the agent keeps open for a proc: captures. */
  predicate Kept(d: Desc) {
    d.Temp? || (d.End? && d.pipe.Captured? && !d.write)
  }

  /** From `t` to `u` only captures have been opened. */
  ghost predicate Grows(t: Table, u: Table) {
    && (forall f :: f in t ==> OpenTo(u, f, t[f]))
    && (forall f :: f in u && f !in t ==> Kept(u[f]))
  }

  lemma GrowsThen(t: Table, u: Table, v: Table)
    requires Grows(t, u) && Grows(u, v)
    ensures Grows(t, v)
  {
    forall f | f in v && f !in t ensures Kept(v[f]) {
      assert f in u ==> OpenTo(v, f, u[f]);
    }
  }

  /** The fds without the ends that wait. */
  function Quiet(s: Pipework): Table {
    s.fds - Waiting(s.ends)
  }

  /** The handlers `i..` have not run in the parent yet. */
  ghost predicate ParentRun(p: ProcId, spec: Fds, hs: seq<Handler>, i: nat, t0: Table, t: Table)
    requires Parses(spec) && SourcesParse(spec)
  {
    && i <= |spec| == |hs|
    && (forall j :: i <= j < |hs| ==> Handles(hs[j], p, spec[j].0, spec[j].1, t))
    && t == t0 - Shuts(hs[..i])
  }

  lemma ParentNext(p: ProcId, spec: Fds, hs: seq<Handler>, i: nat, t0: Table, t: Table)
    requires Parses(spec) && SourcesParse(spec) && Apart(hs) && i < |spec| && ParentRun(p, spec, hs, i, t0, t)
    ensures ParentRun(p, spec, hs, i + 1, t0, t - Shut(hs[i]))
  {
    assert hs[..i + 1][..i] == hs[..i];
    forall j | i + 1 <= j < |hs| ensures Handles(hs[j], p, spec[j].0, spec[j].1, t - Shut(hs[i])) {
      assert Private(hs[i]) !! Private(hs[j]);
      HandlesKept(hs[j], p, spec[j].0, spec[j].1, t, t - Shut(hs[i]));
    }
  }

  /** What is left of the fds of handlers are captures. */
  lemma {:induction false} LeftKept(p: ProcId, spec: Fds, hs: seq<Handler>, t: Table, f: int)
    requires Parses(spec) && SourcesParse(spec) && AllHandle(hs, p, spec, t)
    requires f in Privates(hs) && f !in Shuts(hs)
    ensures f in t && Kept(t[f])
  {
    PrivatesMember(hs, f);
    var i :| 0 <= i < |hs| && f in Private(hs[i]);
    ShutsMember(hs, i);
    assert Handles(hs[i], p, spec[i].0, spec[i].1, t);
  }

  lemma {:induction false} ShutsMember(hs: seq<Handler>, i: nat)
    requires i < |hs|
    ensures Shut(hs[i]) <= Shuts(hs)
  {
    if i < |hs| - 1 {
      ShutsMember(hs[..|hs| - 1], i);
    }
  }

  lemma {:induction false} ShutsPrivate(hs: seq<Handler>)
    ensures Shuts(hs) <= Privates(hs)
  {
    if hs != [] {
      var last := |hs| - 1;
      ShutsPrivate(hs[..last]);
      PrivatesAppend(hs[..last], hs[last]);
      assert hs[..last] + [hs[last]] == hs;
    }
  }

  /** Starting a proc leaves the agent with the fds that it had, captures, and ends that wait. */
  lemma StartedQuiet(p: ProcId, spec: Fds, hs: seq<Handler>, s: Pipework, s1: Pipework, avoid: set<int>)
    requires Parses(spec) && SourcesParse(spec) && Sound(s) && |hs| == |spec| && MadeSome(p, spec, hs, s, s1, avoid)
    ensures s1.fds - (Waiting(s1.ends) + Privates(hs)) == Quiet(s)
    ensures Grows(Quiet(s), s1.fds - Shuts(hs) - Waiting(s1.ends))
    ensures Held(s1.ends, s1.fds - Shuts(hs))
  {
    assert spec[..|hs|] == spec;
    TakesQuiet(s.fds, s.ends, s1.fds, s1.ends, Privates(hs), avoid);
    ShutsPrivate(hs);
    HeldOpen(s1.ends, s1.fds);
    HeldKept(s1.ends, s1.fds, s1.fds - Shuts(hs));
    LeftGrows(p, spec, hs, Quiet(s), s1.fds, Waiting(s1.ends));
  }

  lemma LeftGrows(p: ProcId, spec: Fds, hs: seq<Handler>, quiet: Table, t: Table, waiting: set<int>)
    requires Parses(spec) && SourcesParse(spec) && AllHandle(hs, p, spec, t)
    requires quiet == t - (waiting + Privates(hs)) && Shuts(hs) <= Privates(hs)
    ensures Grows(quiet, t - Shuts(hs) - waiting)
  {
    var left := t - Shuts(hs) - waiting;
    forall f | f in left && f !in quiet ensures Kept(left[f]) {
      assert f in Privates(hs);
      LeftKept(p, spec, hs, t, f);
    }
  }

  /** The agent can read what is captured: it has the reading end of the capture, or the file. */
  ghost predicate CaptureHeld(p: ProcId, name: FdName, fd: Fd, t: Table)
    requires ParseFd(name).Some?
  {
    var n := ParseFd(name).value;
    match fd
    case Capture(Memory) => exists f :: OpenTo(t, f, End(Captured((p, n)), false))
    case Capture(TempFile) => exists f :: OpenTo(t, f, Temp((p, n)))
    case _ => true
  }

  ghost predicate CapturesHeld(p: ProcId, spec: Fds, t: Table)
    requires Parses(spec)
  {
    forall i :: 0 <= i < |spec| ==> CaptureHeld(p, spec[i].0, spec[i].1, t)
  }

  lemma {:induction false} ShutsFrom(hs: seq<Handler>, f: int) returns (i: nat)
    requires f in Shuts(hs)
    ensures i < |hs| && f in Shut(hs[i])
  {
    i := |hs| - 1;
    if f !in Shut(hs[i]) {
      i := ShutsFrom(hs[..i], f);
    }
  }

  /** Of the fds of one handler only those that it closes itself are closed. */
  lemma NotShut(hs: seq<Handler>, i: nat, f: int)
    requires Apart(hs) && i < |hs| && f in Private(hs[i]) && f !in Shut(hs[i])
    ensures f !in Shuts(hs)
  {
    if f in Shuts(hs) {
      var _ := ShutsFrom(hs, f);
    }
  }

  lemma HandlersKeepCaptures(p: ProcId, spec: Fds, hs: seq<Handler>, t: Table, waiting: set<int>)
    requires Parses(spec) && SourcesParse(spec) && AllHandle(hs, p, spec, t) && Apart(hs) && Privates(hs) !! waiting
    ensures CapturesHeld(p, spec, t - Shuts(hs) - waiting)
  {
    var left := t - Shuts(hs) - waiting;
    forall i | 0 <= i < |spec| ensures CaptureHeld(p, spec[i].0, spec[i].1, left) {
      assert Handles(hs[i], p, spec[i].0, spec[i].1, t);
      if spec[i].1.Capture? {
        var n := ParseFd(spec[i].0).value;
        var f := if spec[i].1.mode.Memory? then hs[i].readFd else hs[i].fileFd;
        NotShut(hs, i, f);
        PrivatesMember(hs, f);
        assert OpenTo(left, f, t[f]);
      }
    }
  }

  lemma CapturesKept(p: ProcId, spec: Fds, t: Table, u: Table)
    requires Parses(spec) && CapturesHeld(p, spec, t) && forall f :: f in t ==> OpenTo(u, f, t[f])
    ensures CapturesHeld(p, spec, u)
  {
    forall i | 0 <= i < |spec| ensures CaptureHeld(p, spec[i].0, spec[i].1, u) {
      assert CaptureHeld(p, spec[i].0, spec[i].1, t);
      if spec[i].1.Capture? {
        var n := ParseFd(spec[i].0).value;
        var d := if spec[i].1.mode.Memory? then End(Captured((p, n)), false) else Temp((p, n));
        var f :| OpenTo(t, f, d);
        assert OpenTo(u, f, d);
      }
    }
  }

  /** A forked child, when it is ready: whether it will exec, and its fds. */
  datatype Child = Child(ok: bool, fds: Table)

  /** Proc `p` has been started. */
  ghost predicate Started(p: ProcId, spec: Fds, s: Pipework, s1: Pipework, child: Child, canOpen: string -> bool,
      targets: set<int>)
    requires Parses(spec) && SourcesParse(spec)
  {
    && Connects(s, s1, Elements(WritesOf(p, spec)), Elements(ReadsOf(spec)))
    && (forall k :: Captured(k) in s1.made ==> Captured(k) in s.made || k.0 == p)
    && targets !! Waiting(s1.ends)
    && Grows(Quiet(s), Quiet(s1)) && CapturesHeld(p, spec, Quiet(s1))
    && child.ok == Works(p, spec, Quiet(s), canOpen) && child.fds == Meaning(p, spec, Quiet(s), canOpen)
  }

  /** When the handlers of a proc have been made, child and parent can run them. */
  lemma ReadyToFork(p: ProcId, spec: Fds, hs: seq<Handler>, s: Pipework, s1: Pipework, targets: set<int>)
    requires Parses(spec) && SourcesParse(spec) && Sound(s) && targets !! Waiting(s.ends)
    requires |hs| == |spec| && MadeSome(p, spec, hs, s, s1, targets)
    ensures AllHandle(hs, p, spec, s1.fds) && Apart(hs) && Held(s1.ends, s1.fds)
    ensures Privates(hs) !! Waiting(s1.ends) && targets !! Waiting(s1.ends) + Privates(hs)
  {
    assert spec[..|hs|] == spec;
  }

  /** When the parent has run them, the proc has been started. */
  lemma StartedNow(p: ProcId, spec: Fds, hs: seq<Handler>, s: Pipework, s1: Pipework, child: Child,
      canOpen: string -> bool,
                   targets: set<int>)
    requires Parses(spec) && SourcesParse(spec) && Sound(s) && targets !! Waiting(s.ends)
    requires |hs| == |spec| && MadeSome(p, spec, hs, s, s1, targets)
    requires var base := s1.fds - (Waiting(s1.ends) + Privates(hs));
             child.ok == Works(p, spec, base, canOpen) && child.fds == Meaning(p, spec, base, canOpen)
    ensures Started(p, spec, s, s1.(fds := s1.fds - Shuts(hs)), child, canOpen, targets)
  {
    StartedQuiet(p, spec, hs, s, s1, targets);
    ReadyToFork(p, spec, hs, s, s1, targets);
    assert spec[..|hs|] == spec;
    HandlersKeepCaptures(p, spec, hs, s1.fds, Waiting(s1.ends));
  }

  //----------------------------------------------------------------------------
  // A batch

  /** A child's fds are what its spec means, given the agent's fds at first, which are `first`,
      and captures. */
  ghost predicate ChildOf(spec: ProcSpec, first: Table, child: Child, canOpen: string -> bool)
    requires Parses(spec.fds) && SourcesParse(spec.fds)
  {
    exists base :: Grows(first, base)
                   && child.ok == Works(spec.procId, spec.fds, base, canOpen)
                   && child.fds == Meaning(spec.procId, spec.fds, base, canOpen)
  }

  /** A child holds ends between procs exactly where its own spec names them. */
  ghost predicate Isolated(spec: ProcSpec, child: Child)
    requires Parses(spec.fds) && SourcesParse(spec.fds)
  {
    forall x, k :: HoldsAsNamed(spec, child.fds, x, k)
  }

  /** Fd `x` is open to the writing end of `k`, or to the reading end, if and only if the spec names it. */
  predicate HoldsAsNamed(spec: ProcSpec, t: Table, x: int, k: Key)
    requires Parses(spec.fds) && SourcesParse(spec.fds)
  {
    && (OpenTo(t, x, End(Between(k), true)) <==> (k.0 == spec.procId && Source(spec.fds, x) == Some(k.1)))
    && (OpenTo(t, x, End(Between(k), false)) <==> ReadSource(spec.fds, x) == Some(k))
  }

  predicate NothingBetween(t: Table) {
    forall f :: f in t ==> !(t[f].End? && t[f].pipe.Between?)
  }

  lemma ChildIsolated(spec: ProcSpec, first: Table, child: Child, canOpen: string -> bool)
    requires Parses(spec.fds) && SourcesParse(spec.fds) && NothingBetween(first)
    requires ChildOf(spec, first, child, canOpen) && child.ok
    ensures Isolated(spec, child)
  {
    var base :| Grows(first, base) && Works(spec.procId, spec.fds, base, canOpen)
                && child.fds == Meaning(spec.procId, spec.fds, base, canOpen);
    GrownNothingBetween(first, base);
    forall x, k ensures HoldsAsNamed(spec, child.fds, x, k) {
      WriteEndsNamed(spec.procId, spec.fds, base, canOpen, x, k);
      ReadEndsNamed(spec.procId, spec.fds, base, canOpen, x, k);
    }
  }

  /** What a child finds, fd by fd; of the agent's fds, it inherits those that were open at first, temporary
      files, and ends that captures are read from. */
  ghost predicate ChildWired(spec: ProcSpec, first: Table, child: Child, canOpen: string -> bool)
    requires Parses(spec.fds) && SourcesParse(spec.fds)
  {
    exists base: Table ::
      && (forall f :: f in first ==> OpenTo(base, f, first[f]))
      && (forall f :: f in base && f !in first ==> IsCapture(base[f]))
      && Wired(spec.procId, spec.fds, base, child.fds, child.ok, canOpen)
  }

  /** A temporary file, or an end that a capture is read from. */
  ghost predicate IsCapture(d: Desc) {
    d.Temp? || exists k :: d == End(Captured(k), false)
  }

  lemma KeptCapture(d: Desc)
    requires Kept(d)
    ensures IsCapture(d)
  {
    if d.End? {
      assert d == End(Captured(d.pipe.key), false);
    }
  }

  lemma ChildIsWired(spec: ProcSpec, first: Table, child: Child, canOpen: string -> bool)
    requires Parses(spec.fds) && SourcesParse(spec.fds) && Distinct(spec.fds) && ChildOf(spec, first, child, canOpen)
    ensures ChildWired(spec, first, child, canOpen)
  {
    var base :| Grows(first, base) && child.ok == Works(spec.procId, spec.fds, base, canOpen)
                && child.fds == Meaning(spec.procId, spec.fds, base, canOpen);
    MeaningWired(spec.procId, spec.fds, base, canOpen);
    forall f | f in base && f !in first ensures IsCapture(base[f]) {
      KeptCapture(base[f]);
    }
  }

  lemma GrownNothingBetween(t: Table, u: Table)
    requires Grows(t, u) && NothingBetween(t)
    ensures NothingBetween(u)
  {
    forall f | f in u ensures !(u[f].End? && u[f].pipe.Between?) {
      assert f in t ==> OpenTo(u, f, t[f]);
    }
  }

  /** The first `i` procs of an accepted batch have been started. */
  ghost predicate Begun(procs: Procs, i: nat, first: Table, s: Pipework, children: seq<Child>,
      canOpen: string -> bool, targets: set<int>)
    requires Accepted(procs) && i <= |procs|
  {
    && Sound(s) && targets !! Waiting(s.ends)
    && WriteTaken(s.ends) == Elements(Writes(procs[..i])) && ReadTaken(s.ends) == Elements(Reads(procs[..i]))
    && s.ends.Keys == Elements(Writes(procs[..i])) + Elements(Reads(procs[..i]))
    && (forall k :: Captured(k) in s.made ==> exists j :: 0 <= j < i && procs[j].procId == k.0)
    && Grows(first, Quiet(s))
    && (forall j :: 0 <= j < i ==> CapturesHeld(procs[j].procId, procs[j].fds, Quiet(s)))
    && Forked(procs, i, first, children, canOpen)
  }

  ghost predicate Forked(procs: Procs, i: nat, first: Table, children: seq<Child>, canOpen: string -> bool)
    requires Accepted(procs) && i <= |procs|
  {
    |children| == i && forall j :: 0 <= j < i ==> ChildOf(procs[j], first, children[j], canOpen)
  }

  lemma ForkedNext(procs: Procs, i: nat, first: Table, children: seq<Child>, canOpen: string -> bool, child: Child)
    requires Accepted(procs) && i < |procs| && Forked(procs, i, first, children, canOpen)
    requires ChildOf(procs[i], first, child, canOpen)
    ensures Forked(procs, i + 1, first, children + [child], canOpen)
  {
  }

  lemma ElementsSum<T>(a: multiset<T>, b: multiset<T>)
    ensures Elements(a + b) == Elements(a) + Elements(b)
  {
  }

  /** Every end that the next proc asks for is still to be taken, and so are its captures. */
  lemma NextFits(procs: Procs, i: nat, first: Table, s: Pipework, children: seq<Child>, canOpen: string -> bool,
      targets: set<int>)
    requires Accepted(procs) && i < |procs| && Begun(procs, i, first, s, children, canOpen, targets)
    ensures Fits(WritesOf(procs[i].procId, procs[i].fds), WriteTaken(s.ends))
    ensures Fits(ReadsOf(procs[i].fds), ReadTaken(s.ends))
    ensures forall n :: Captured((procs[i].procId, n)) !in s.made
  {
    assert procs[..i + 1][..i] == procs[..i];
    WritesPrefix(procs, i + 1);
    ReadsPrefix(procs, i + 1);
    forall k | k in WritesOf(procs[i].procId, procs[i].fds)
      ensures WritesOf(procs[i].procId, procs[i].fds)[k] == 1 && k !in WriteTaken(s.ends)
    {
      WritesOnce(procs, k);
      assert Writes(procs)[k] >= Writes(procs[..i])[k] + WritesOf(procs[i].procId, procs[i].fds)[k];
    }
    forall k | k in ReadsOf(procs[i].fds) ensures ReadsOf(procs[i].fds)[k] == 1 && k !in ReadTaken(s.ends) {
      WritesOnce(procs, k);
      assert Reads(procs)[k] >= Reads(procs[..i])[k] + ReadsOf(procs[i].fds)[k];
    }
  }

  lemma StartedChild(spec: ProcSpec, first: Table, base: Table, child: Child, canOpen: string -> bool)
    requires Parses(spec.fds) && SourcesParse(spec.fds) && Grows(first, base)
    requires child.ok == Works(spec.procId, spec.fds, base, canOpen)
    requires child.fds == Meaning(spec.procId, spec.fds, base, canOpen)
    ensures ChildOf(spec, first, child, canOpen)
  {
  }

  lemma BegunNext(procs: Procs, i: nat, first: Table, s: Pipework, children: seq<Child>, canOpen: string -> bool,
      targets: set<int>,
                  s1: Pipework, child: Child)
    requires Accepted(procs) && i < |procs| && Begun(procs, i, first, s, children, canOpen, targets)
    requires Started(procs[i].procId, procs[i].fds, s, s1, child, canOpen, targets)
    ensures Begun(procs, i + 1, first, s1, children + [child], canOpen, targets)
  {
    BegunTaken(procs, i, s, s1);
    GrowsThen(first, Quiet(s), Quiet(s1));
    StartedChild(procs[i], first, Quiet(s), child, canOpen);
    ForkedNext(procs, i, first, children, canOpen, child);
    BegunCaptures(procs, i, s.made, s1.made);
    forall j | 0 <= j < i ensures CapturesHeld(procs[j].procId, procs[j].fds, Quiet(s1)) {
      CapturesKept(procs[j].procId, procs[j].fds, Quiet(s), Quiet(s1));
    }
  }

  lemma BegunCaptures(procs: Procs, i: nat, made: set<Pipe>, made1: set<Pipe>)
    requires i < |procs| && forall k :: Captured(k) in made ==> exists j :: 0 <= j < i && procs[j].procId == k.0
    requires forall k :: Captured(k) in made1 ==> Captured(k) in made || k.0 == procs[i].procId
    ensures forall k :: Captured(k) in made1 ==> exists j :: 0 <= j < i + 1 && procs[j].procId == k.0
  {
    forall k | Captured(k) in made1 ensures exists j :: 0 <= j < i + 1 && procs[j].procId == k.0 {
      assert k.0 == procs[i].procId || Captured(k) in made;
    }
  }

  lemma BegunTaken(procs: Procs, i: nat, s: Pipework, s1: Pipework)
    requires i < |procs|
    requires WriteTaken(s.ends) == Elements(Writes(procs[..i])) && ReadTaken(s.ends) == Elements(Reads(procs[..i]))
    requires s.ends.Keys == Elements(Writes(procs[..i])) + Elements(Reads(procs[..i]))
    requires Connects(s, s1, Elements(WritesOf(procs[i].procId, procs[i].fds)), Elements(ReadsOf(procs[i].fds)))
    ensures var next := procs[..i + 1];
            && WriteTaken(s1.ends) == Elements(Writes(next)) && ReadTaken(s1.ends) == Elements(Reads(next))
            && s1.ends.Keys == Elements(Writes(next)) + Elements(Reads(next))
  {
    assert procs[..i + 1][..i] == procs[..i];
    ElementsSum(Writes(procs[..i]), WritesOf(procs[i].procId, procs[i].fds));
    ElementsSum(Reads(procs[..i]), ReadsOf(procs[i].fds));
  }

  /** When all procs have been started, no end waits. */
  lemma AllTaken(procs: Procs, first: Table, s: Pipework, children: seq<Child>, canOpen: string -> bool,
      targets: set<int>)
    requires Accepted(procs) && Begun(procs, |procs|, first, s, children, canOpen, targets)
    ensures Waiting(s.ends) == {}
  {
    assert procs[..|procs|] == procs;
    NoneWaits(s.ends, Elements(Writes(procs)));
  }

  lemma NoneWaits(ends: map<Key, Ends>, keys: set<Key>)
    requires ends.Keys == keys && WriteTaken(ends) == keys && ReadTaken(ends) == keys
    ensures Waiting(ends) == {}
  {
    forall k | k in ends ensures ends[k] == Ends(None, None) {
      assert k in WriteTaken(ends) && k in ReadTaken(ends);
    }
  }

  /** From `t` to `u` only temporary files have been closed. */
  ghost predicate ClosesTemps(t: Table, u: Table) {
    && (forall f :: f in u ==> OpenTo(t, f, u[f]))
    && (forall f :: f in t && !t[f].Temp? ==> OpenTo(u, f, t[f]))
  }

  /** No end waits when proc `i` is started, and proc `i` asks for none. */
  ghost predicate CleanAt(procs: Procs, i: nat)
    requires i < |procs|
  {
    && Writes(procs[..i]) == Reads(procs[..i])
    && WritesOf(procs[i].procId, procs[i].fds) == multiset{} && ReadsOf(procs[i].fds) == multiset{}
  }

  lemma FailingForked(procs: Procs, i: nat, first: Table, s: Pipework, children: seq<Child>, canOpen: string -> bool,
                      targets: set<int>, hs: seq<Handler>, s1: Pipework, child: Child)
    requires Accepted(procs) && i < |procs| && Begun(procs, i, first, s, children, canOpen, targets)
    requires |hs| == |procs[i].fds| && MadeSome(procs[i].procId, procs[i].fds, hs, s, s1, targets)
    requires var base := s1.fds - (Waiting(s1.ends) + Privates(hs));
             && child.ok == Works(procs[i].procId, procs[i].fds, base, canOpen)
             && child.fds == Meaning(procs[i].procId, procs[i].fds, base, canOpen)
    ensures Forked(procs, i + 1, first, children + [child], canOpen)
  {
    TakesQuiet(s.fds, s.ends, s1.fds, s1.ends, Privates(hs), targets);
    StartedChild(procs[i], first, Quiet(s), child, canOpen);
    ForkedNext(procs, i, first, children, canOpen, child);
  }

  /** A handler that holds an end between procs is one that its spec asks for an end. */
  lemma HoldsAsked(h: Handler, p: ProcId, name: FdName, fd: Fd, t: Table)
    requires ParseFd(name).Some? && (fd.PipeRead? ==> ParseFd(fd.name).Some?) && Handles(h, p, name, fd, t)
    ensures WriteOf(p, name, fd) == multiset{} && ReadOf(fd) == multiset{} ==>
              forall f :: f in Private(h) ==> f in t && !(t[f].End? && t[f].pipe.Between?)
    ensures WriteOf(p, name, fd) != multiset{} || ReadOf(fd) != multiset{} ==>
              exists f :: f in Private(h) && f in t && t[f].End? && t[f].pipe.Between?
  {
    match h
    case WritesPipe(_, w) => assert w in Private(h);
    case ReadsPipe(_, r) => assert r in Private(h);
    case _ =>
  }

  lemma {:induction false} AsksNothing(p: ProcId, fds: Fds, i: nat)
    requires i < |fds| && WritesOf(p, fds) == multiset{} && ReadsOf(fds) == multiset{}
    ensures WriteOf(p, fds[i].0, fds[i].1) == multiset{} && ReadOf(fds[i].1) == multiset{}
  {
    var last := |fds| - 1;
    assert WritesOf(p, fds[..last]) <= WritesOf(p, fds) && WriteOf(p, fds[last].0, fds[last].1) <= WritesOf(p, fds);
    assert ReadsOf(fds[..last]) <= ReadsOf(fds) && ReadOf(fds[last].1) <= ReadsOf(fds);
    if i < last {
      AsksNothing(p, fds[..last], i);
    }
  }

  lemma {:induction false} AsksSomething(p: ProcId, fds: Fds) returns (i: nat)
    requires WritesOf(p, fds) != multiset{} || ReadsOf(fds) != multiset{}
    ensures i < |fds| && (WriteOf(p, fds[i].0, fds[i].1) != multiset{} || ReadOf(fds[i].1) != multiset{})
  {
    i := |fds| - 1;
    if WriteOf(p, fds[i].0, fds[i].1) == multiset{} && ReadOf(fds[i].1) == multiset{} {
      i := AsksSomething(p, fds[..i]);
    }
  }

  /** What the handlers of a proc hold is nothing between procs if and only if its spec asks for no end. */
  lemma HandlersHold(p: ProcId, fds: Fds, hs: seq<Handler>, t: Table)
    requires Parses(fds) && SourcesParse(fds) && AllHandle(hs, p, fds, t)
    ensures (WritesOf(p, fds) == multiset{} && ReadsOf(fds) == multiset{})
            <==> forall f :: f in Privates(hs) ==> f in t && !(t[f].End? && t[f].pipe.Between?)
  {
    if WritesOf(p, fds) == multiset{} && ReadsOf(fds) == multiset{} {
      forall f | f in Privates(hs) ensures f in t && !(t[f].End? && t[f].pipe.Between?) {
        PrivatesMember(hs, f);
        var i :| 0 <= i < |hs| && f in Private(hs[i]);
        AsksNothing(p, fds, i);
        HoldsAsked(hs[i], p, fds[i].0, fds[i].1, t);
      }
    } else {
      var i := AsksSomething(p, fds);
      HoldsAsked(hs[i], p, fds[i].0, fds[i].1, t);
      var f :| f in Private(hs[i]) && f in t && t[f].End? && t[f].pipe.Between?;
      PrivatesMember(hs, f);
      assert f in Privates(hs);
    }
  }

  /** No end waits if and only if the same ends have been taken on both sides. */
  lemma WaitingExactly(ends: map<Key, Ends>, t: Table)
    requires Held(ends, t) && ends.Keys == WriteTaken(ends) + ReadTaken(ends)
    ensures WriteTaken(ends) == ReadTaken(ends) ==> Waiting(ends) == {}
    ensures WriteTaken(ends) != ReadTaken(ends) ==> !NothingBetween(t)
  {
    if WriteTaken(ends) == ReadTaken(ends) {
      NoneWaits(ends, ends.Keys);
    } else {
      var k :| k in ends && (k in WriteTaken(ends)) != (k in ReadTaken(ends));
      var f := if ends[k].read.Some? then ends[k].read.value else ends[k].write.value;
      assert f in t && t[f].End? && t[f].pipe.Between?;
    }
  }

  /** When the handlers of a proc have been made, an end between procs is open if and only if one waits
      or is asked for by the proc. */
  lemma MadeBetween(p: ProcId, spec: Fds, hs: seq<Handler>, s: Pipework, s1: Pipework, avoid: set<int>)
    requires Parses(spec) && SourcesParse(spec) && Sound(s) && |hs| == |spec| && MadeSome(p, spec, hs, s, s1, avoid)
    requires NothingBetween(Quiet(s)) && s1.ends.Keys == WriteTaken(s1.ends) + ReadTaken(s1.ends)
    ensures NothingBetween(s1.fds)
            <==> && WriteTaken(s1.ends) == ReadTaken(s1.ends)
                 && WritesOf(p, spec) == multiset{} && ReadsOf(spec) == multiset{}
  {
    assert spec[..|hs|] == spec;
    HandlersHold(p, spec, hs, s1.fds);
    WaitingExactly(s1.ends, s1.fds);
    TakesQuiet(s.fds, s.ends, s1.fds, s1.ends, Privates(hs), avoid);
    if WriteTaken(s1.ends) == ReadTaken(s1.ends) && WritesOf(p, spec) == multiset{} && ReadsOf(spec) == multiset{} {
      NothingAdded(Quiet(s), s1.fds, Privates(hs));
    } else if WritesOf(p, spec) != multiset{} || ReadsOf(spec) != multiset{} {
      PrivatesOpen(p, spec, hs, s1.fds);
    }
  }

  lemma NothingAdded(quiet: Table, t: Table, privates: set<int>)
    requires NothingBetween(quiet) && t - privates == quiet
    requires forall f :: f in privates ==> f in t && !(t[f].End? && t[f].pipe.Between?)
    ensures NothingBetween(t)
  {
    forall f | f in t ensures !(t[f].End? && t[f].pipe.Between?) {
      if f !in privates {
        assert f in quiet && quiet[f] == t[f];
      }
    }
  }

  lemma PrivatesOpen(p: ProcId, fds: Fds, hs: seq<Handler>, t: Table)
    requires Parses(fds) && SourcesParse(fds) && AllHandle(hs, p, fds, t)
    requires WritesOf(p, fds) != multiset{} || ReadsOf(fds) != multiset{}
    ensures !NothingBetween(t)
  {
    var i := AsksSomething(p, fds);
    HoldsAsked(hs[i], p, fds[i].0, fds[i].1, t);
  }

  /** Ends that are asked for once at most are the same as sets if and only if they are the same. */
  lemma SameElements(a: multiset<Key>, b: multiset<Key>)
    requires forall k :: a[k] <= 1 && b[k] <= 1
    ensures Elements(a) == Elements(b) <==> a == b
  {
    if Elements(a) == Elements(b) {
      forall k ensures a[k] == b[k] {
        assert k in Elements(a) <==> k in Elements(b);
      }
    }
  }

  /** Dropping handlers makes no difference to ends between procs. */
  lemma TempsBetween(t: Table, u: Table)
    requires ClosesTemps(t, u)
    ensures NothingBetween(t) <==> NothingBetween(u)
  {
    if NothingBetween(t) {
      forall f | f in u ensures !(u[f].End? && u[f].pipe.Between?) {
        assert OpenTo(t, f, u[f]);
      }
    }
    if NothingBetween(u) {
      forall f | f in t ensures !(t[f].End? && t[f].pipe.Between?) {
        assert !t[f].Temp? ==> OpenTo(u, f, t[f]);
      }
    }
  }

  lemma LeavesBetween(procs: Procs, i: nat, first: Table, s: Pipework, children: seq<Child>, canOpen: string -> bool,
                      targets: set<int>, hs: seq<Handler>, s1: Pipework)
    requires Accepted(procs) && i < |procs| && Begun(procs, i, first, s, children, canOpen, targets)
    requires |hs| == |procs[i].fds| && MadeSome(procs[i].procId, procs[i].fds, hs, s, s1, targets)
    ensures NothingBetween(first) ==> (NothingBetween(s1.fds) <==> CleanAt(procs, i))
  {
    if NothingBetween(first) {
      GrownNothingBetween(first, Quiet(s));
      assert procs[i].fds[..|hs|] == procs[i].fds;
      BegunTaken(procs, i, s, s1);
      MadeBetween(procs[i].procId, procs[i].fds, hs, s, s1, targets);
      if WritesOf(procs[i].procId, procs[i].fds) == multiset{} && ReadsOf(procs[i].fds) == multiset{} {
        TakenClean(procs, i, s1);
      }
    }
  }

  lemma TakenClean(procs: Procs, i: nat, s1: Pipework)
    requires Accepted(procs) && i < |procs|
    requires WriteTaken(s1.ends) == Elements(Writes(procs[..i + 1]))
    requires ReadTaken(s1.ends) == Elements(Reads(procs[..i + 1]))
    requires WritesOf(procs[i].procId, procs[i].fds) == multiset{} && ReadsOf(procs[i].fds) == multiset{}
    ensures WriteTaken(s1.ends) == ReadTaken(s1.ends) <==> Writes(procs[..i]) == Reads(procs[..i])
  {
    var next := procs[..i + 1];
    assert next[..i] == procs[..i] && next[i] == procs[i];
    assert Writes(next) == Writes(procs[..i]) + WritesOf(procs[i].procId, procs[i].fds) == Writes(procs[..i]);
    assert Reads(next) == Reads(procs[..i]) + ReadsOf(procs[i].fds) == Reads(procs[..i]);
    WritesPrefix(procs, i);
    ReadsPrefix(procs, i);
    forall k ensures Writes(procs[..i])[k] <= 1 && Reads(procs[..i])[k] <= 1 {
      WritesOnce(procs, k);
      assert Writes(procs[..i])[k] <= Writes(procs)[k] && Reads(procs[..i])[k] <= Reads(procs)[k];
    }
    SameElements(Writes(procs[..i]), Reads(procs[..i]));
  }

  //----------------------------------------------------------------------------
  // A process

  /** A process that starts procs, or one forked from it: its open fds and its `Pipes`.  `made`
      are the pipes it has made, `closed` what it has closed. */
  class Process {
    var fds: Table
    var ends: map<Key, Ends>
    ghost var made: set<Pipe>
    ghost var closed: seq<Desc>

    constructor (fds: Table, ends: map<Key, Ends>)
      ensures this.fds == fds && this.ends == ends && made == {} && closed == []
    {
      this.fds, this.ends, made, closed := fds, ends, {}, [];
    }

    /** A number that is not in `used`. */
    static method Unused(used: set<int>) returns (n: int)
      ensures n !in used
    {
      n := 0;
      ghost var rest := used;
      while n in used
        invariant rest == set k | k in used && !(0 <= k < n)
        invariant 0 <= n
        decreases |rest|
      {
        rest := rest - {n};
        n := n + 1;
      }
    }

    /** A new fd; not one of `avoid`. */
    method Open(d: Desc, avoid: set<int>) returns (f: int)
      modifies `fds
      ensures f !in old(fds) && f !in avoid && fds == old(fds)[f := d]
    {
      f := Unused(fds.Keys + avoid);
      fds := fds[f := d];
    }

    /** `pipe`, for a pipe not made before. */
    method MakePipe(pipe: Pipe, avoid: set<int>) returns (r: int, w: int)
      requires pipe !in made
      modifies `fds, `made
      ensures r != w && {r, w} !! old(fds).Keys && {r, w} !! avoid
      ensures fds == old(fds)[r := End(pipe, false)][w := End(pipe, true)] && made == old(made) + {pipe}
    {
      r := Open(End(pipe, false), avoid);
      w := Open(End(pipe, true), avoid);
      made := made + {pipe};
    }

    /** `close`; fails if the fd is not open. */
    method Close(f: int) returns (ok: bool)
      modifies `fds, `closed
      ensures ok == (f in old(fds)) && fds == old(fds) - {f}
      ensures closed == old(closed) + if ok then [old(fds)[f]] else []
    {
      ok := f in fds;
      if ok {
        closed := closed + [fds[f]];
        fds := fds - {f};
      }
    }

    /** `dup2`; fails if the fd is not open. */
    method Dup2(f: int, target: int) returns (ok: bool)
      modifies `fds
      ensures ok == (f in old(fds)) && fds == if ok then old(fds)[target := old(fds)[f]] else old(fds)
    {
      ok := f in fds;
      if ok {
        fds := fds[target := fds[f]];
      }
    }

    /** `dup2`, then `close`. */
    method MoveTo(f: int, target: int) returns (ok: bool)
      requires f != target
      modifies `fds, `closed
      ensures ok == (f in old(fds))
      ensures fds == if ok then old(fds)[target := old(fds)[f]] - {f} else old(fds)
    {
      ok := Dup2(f, target);
      if ok {
        ok := Close(f);
      }
    }

    /** `get_read_fd`: the reading end of the pipe of `k`.  Unwrapping succeeds because each end
        is asked for once. */
    method GetReadFd(k: Key, avoid: set<int>) returns (f: int)
      requires Held(ends, fds) && k !in ReadTaken(ends) && (Between(k) in made <==> k in ends)
      modifies `fds, `ends, `made
      ensures Takes(old(fds), old(ends), fds, ends, {f}, avoid) && OpenTo(fds, f, End(Between(k), false))
      ensures ReadTaken(ends) == old(ReadTaken(ends)) + {k} && WriteTaken(ends) == old(WriteTaken(ends))
      ensures ends.Keys == old(ends.Keys) + {k} && made == old(made) + {Between(k)}
    {
      HeldOpen(ends, fds);
      if k in ends {
        TakenRead(ends, fds, k);
        f := ends[k].read.value;
        ends := ends[k := ends[k].(read := None)];
      } else {
        var w;
        f, w := MakePipe(Between(k), avoid);
        NewPipe(ends, k, Ends(None, Some(w)));
        ends := ends[k := Ends(None, Some(w))];
        assert fds.Keys - old(fds.Keys) == {f, w};
      }
    }

    /** `get_write_fd`: the writing end. */
    method GetWriteFd(k: Key, avoid: set<int>) returns (f: int)
      requires Held(ends, fds) && k !in WriteTaken(ends) && (Between(k) in made <==> k in ends)
      modifies `fds, `ends, `made
      ensures Takes(old(fds), old(ends), fds, ends, {f}, avoid) && OpenTo(fds, f, End(Between(k), true))
      ensures WriteTaken(ends) == old(WriteTaken(ends)) + {k} && ReadTaken(ends) == old(ReadTaken(ends))
      ensures ends.Keys == old(ends.Keys) + {k} && made == old(made) + {Between(k)}
    {
      HeldOpen(ends, fds);
      if k in ends {
        TakenWrite(ends, fds, k);
        f := ends[k].write.value;
        ends := ends[k := ends[k].(write := None)];
      } else {
        var r;
        r, f := MakePipe(Between(k), avoid);
        NewPipe(ends, k, Ends(Some(r), None));
        ends := ends[k := Ends(Some(r), None)];
        assert fds.Keys - old(fds.Keys) == {f, r};
      }
    }

    ghost function Pipes(): Pipework
      reads this
    {
      Pipework(fds, ends, made)
    }

    /** `make_fd_handler`.  Parsing the names succeeds because the specs are validated. */
    method MakeFdHandler(p: ProcId, name: FdName, fd: Fd, avoid: set<int>) returns (h: Handler)
      requires ParseFd(name).Some? && (fd.PipeRead? ==> ParseFd(fd.name).Some?)
      requires Sound(Pipes())
      requires Elements(WriteOf(p, name, fd)) !! WriteTaken(ends) && Elements(ReadOf(fd)) !! ReadTaken(ends)
      requires CaptureOf(p, name, fd) !! made
      modifies `fds, `ends, `made
      ensures MadeOne(p, name, fd, old(Pipes()), Pipes(), h, avoid)
    {
      var n := ParseFd(name).value;
      match fd
      case Capture(TempFile) => h := MakeTemp(p, name, avoid);
      case Capture(Memory) => h := MakeCapture(p, name, avoid);
      case PipeWrite => h := MakeWriter(p, name, avoid);
      case PipeRead(_, _) => h := MakeReader(p, name, fd, avoid);
      case _ =>
        h := match fd
          case Close => Closes(n)
          case Null => OpensFile(n, DEV_NULL)
          case File(path) => OpensFile(n, path)
          case Dup(m) => Dups(n, m)
          case _ => Inherits;
        TakesOpened(fds, ends, fds, {}, avoid);
    }

    method MakeTemp(p: ProcId, name: FdName, avoid: set<int>) returns (h: Handler)
      requires ParseFd(name).Some? && Sound(Pipes())
      modifies `fds
      ensures MadeOne(p, name, Capture(TempFile), old(Pipes()), Pipes(), h, avoid)
    {
      var n := ParseFd(name).value;
      HeldOpen(ends, fds);
      var f := Open(Temp((p, n)), avoid);
      h := WritesTemp(n, f);
      TakesOpened(old(fds), ends, fds, {f}, avoid);
    }

    method MakeCapture(p: ProcId, name: FdName, avoid: set<int>) returns (h: Handler)
      requires ParseFd(name).Some? && Sound(Pipes()) && CaptureOf(p, name, Capture(Memory)) !! made
      modifies `fds, `made
      ensures MadeOne(p, name, Capture(Memory), old(Pipes()), Pipes(), h, avoid)
    {
      var n := ParseFd(name).value;
      HeldOpen(ends, fds);
      var r, w := MakePipe(Captured((p, n)), avoid);
      h := WritesCapture(n, r, w);
      TakesOpened(old(fds), ends, fds, {r, w}, avoid);
    }

    method MakeWriter(p: ProcId, name: FdName, avoid: set<int>) returns (h: Handler)
      requires ParseFd(name).Some? && Sound(Pipes()) && Elements(WriteOf(p, name, PipeWrite)) !! WriteTaken(ends)
      modifies `fds, `ends, `made
      ensures MadeOne(p, name, PipeWrite, old(Pipes()), Pipes(), h, avoid)
    {
      var k := (p, ParseFd(name).value);
      assert k in Elements(WriteOf(p, name, PipeWrite));
      var f := GetWriteFd(k, avoid);
      h := WritesPipe(k.1, f);
    }

    method MakeReader(p: ProcId, name: FdName, fd: Fd, avoid: set<int>) returns (h: Handler)
      requires ParseFd(name).Some? && fd.PipeRead? && ParseFd(fd.name).Some?
      requires Sound(Pipes()) && Elements(ReadOf(fd)) !! ReadTaken(ends)
      modifies `fds, `ends, `made
      ensures MadeOne(p, name, fd, old(Pipes()), Pipes(), h, avoid)
    {
      var k := (fd.procId, ParseFd(fd.name).value);
      assert k in Elements(ReadOf(fd));
      var f := GetReadFd(k, avoid);
      h := ReadsPipe(ParseFd(name).value, f);
    }

    /** The handlers of a proc. */
    method MakeFdHandlers(p: ProcId, spec: Fds, avoid: set<int>) returns (hs: seq<Handler>)
      requires Parses(spec) && SourcesParse(spec) && Distinct(spec)
      requires Sound(Pipes())
      requires Fits(WritesOf(p, spec), WriteTaken(ends)) && Fits(ReadsOf(spec), ReadTaken(ends))
      requires forall n :: Captured((p, n)) !in made
      modifies `fds, `ends, `made
      ensures |hs| == |spec| && MadeSome(p, spec, hs, old(Pipes()), Pipes(), avoid)
    {
      hs := [];
      for i := 0 to |spec|
        invariant |hs| == i && MadeSome(p, spec, hs, old(Pipes()), Pipes(), avoid)
      {
        hs := MakeNext(p, spec, hs, old(Pipes()), avoid);
      }
    }

    /** The handler of the next fd. */
    method MakeNext(p: ProcId, spec: Fds, hs: seq<Handler>, ghost s: Pipework, avoid: set<int>)
      returns (r: seq<Handler>)
      requires Parses(spec) && SourcesParse(spec) && Distinct(spec) && |hs| < |spec| && Sound(s)
      requires Fits(WritesOf(p, spec), WriteTaken(s.ends)) && Fits(ReadsOf(spec), ReadTaken(s.ends))
      requires forall n :: Captured((p, n)) !in s.made
      requires MadeSome(p, spec, hs, s, Pipes(), avoid)
      modifies `fds, `ends, `made
      ensures |r| == |hs| + 1 && MadeSome(p, spec, r, s, Pipes(), avoid)
    {
      ghost var s1 := Pipes();
      FitsSpec(p, spec, |hs|, WriteTaken(s.ends), ReadTaken(s.ends));
      CaptureNew(p, spec, |hs|, s.made, made);
      var h := MakeFdHandler(p, spec[|hs|].0, spec[|hs|].1, avoid);
      MadeNext(p, spec, hs, s, s1, h, Pipes(), avoid);
      r := hs + [h];
    }

    /** `in_child`.  Dropping the handler of a temporary file closes the agent's fd for it. */
    method InChild(h: Handler, ghost p: ProcId, ghost name: FdName, ghost fd: Fd, canOpen: string -> bool)
      returns (ok: bool)
      requires ParseFd(name).Some? && (fd.PipeRead? ==> ParseFd(fd.name).Some?)
      requires Handles(h, p, name, fd, fds) && ParseFd(name).value !in Private(h)
      modifies `fds, `closed
      ensures ok == Succeeds(name, fd, old(fds), canOpen)
      ensures fds == Apply(p, name, fd, old(fds) - Private(h), canOpen)
      ensures ok ==> Attached(p, name, fd, old(fds), fds)
      ensures forall f :: f in Private(h) ==> f !in fds
      ensures forall f :: f !in Private(h) && f != ParseFd(name).value ==> Same(old(fds), f, fds, f)
    {
      ok := true;
      match h
      case Inherits =>
      case Closes(n) => ok := Close(n);
      case Dups(n, m) =>
        if m != n {
          ok := Dup2(m, n);
        }
      case OpensFile(n, path) =>
        ok := canOpen(path);
        if ok {
          var f := Open(Opened(path), {});
          if f != n {
            ok := Dup2(f, n);
            if ok {
              ok := Close(f);
            }
          }
        }
      case WritesTemp(n, f) =>
        if f != n {
          ok := Dup2(f, n);
        }
        var _ := Close(f);
      case WritesCapture(n, r, w) =>
        ok := Close(r);
        if ok {
          ok := MoveTo(w, n);
        }
      case WritesPipe(n, w) =>
        ok := MoveTo(w, n);
      case ReadsPipe(n, r) =>
        ok := MoveTo(r, n);
    }

    /** `close`: closes the ends that wait, and returns how many there were. */
    method ClosePipes() returns (count: nat)
      requires Held(ends, fds)
      modifies `fds, `closed
      ensures fds == old(fds) - Waiting(ends) && count == |Waiting(ends)|
      ensures count == 0 ==> closed == old(closed)
    {
      count := 0;
      var rest := ends;
      ClosingFirst(fds, ends);
      while rest != map[]
        invariant Closing(old(fds), ends, rest, fds, count)
        invariant count == 0 ==> closed == old(closed)
        decreases |rest|
      {
        var k :| k in rest;
        ClosingNext(old(fds), ends, rest, fds, count, k);
        count := CloseEnds(rest[k], count);
        rest := rest - {k};
      }
      ClosingLast(old(fds), ends, fds, count);
    }

    /** Closes the ends of one pipe. */
    method CloseEnds(e: Ends, count: nat) returns (r: nat)
      requires e.read.Some? ==> e.read.value in fds
      requires e.write.Some? ==> e.write.value in fds && e.read != e.write
      modifies `fds, `closed
      ensures fds == old(fds) - FdsOf(e) && r == count + |FdsOf(e)|
      ensures r == 0 ==> closed == old(closed)
    {
      r := count;
      if e.read.Some? {
        var ok := Close(e.read.value);
        assert ok;
        r := r + 1;
      }
      if e.write.Some? {
        var ok := Close(e.write.value);
        assert ok;
        r := r + 1;
      }
    }

    /** What the child does between fork and exec: its fds are then exactly what its spec means,
        given the other fds that it inherits. */
    method RunChild(p: ProcId, spec: Fds, hs: seq<Handler>, canOpen: string -> bool, ghost targets: set<int>)
      returns (ok: bool)
      requires Parses(spec) && SourcesParse(spec) && Targets(spec, targets)
      requires Held(ends, fds) && AllHandle(hs, p, spec, fds) && Apart(hs)
      requires Privates(hs) !! Waiting(ends) && targets !! Waiting(ends) + Privates(hs)
      modifies `fds, `closed
      ensures var base := old(fds) - (Waiting(ends) + Privates(hs));
              && ok == Works(p, spec, base, canOpen) && fds == Meaning(p, spec, base, canOpen)
              && (Distinct(spec) ==> Wired(p, spec, base, fds, ok, canOpen))
    {
      ok := true;
      ghost var base := fds - (Waiting(ends) + Privates(hs));
      assert hs[0..] == hs;
      for i := 0 to |hs|
        invariant ChildRun(p, spec, hs, i, ends, base, fds, ok, canOpen)
      {
        ghost var t := fds;
        ChildNext(p, spec, hs, i, ends, base, t, ok, canOpen, targets);
        RestMember(hs, 0, i);
        var done := InChild(hs[i], p, spec[i].0, spec[i].1, canOpen);
        ok := ok && done;
      }
      assert hs[|hs|..] == [] && spec[..|hs|] == spec;
      var _ := ClosePipes();
      if Distinct(spec) {
        MeaningWired(p, spec, base, canOpen);
      }
    }

    /** Closes an end of a pipe, which is open. */
    method CloseEnd(f: int)
      requires f in fds && fds[f].End?
      modifies `fds, `closed
      ensures fds == old(fds) - {f}
      ensures Tally(old(closed), closed, WriteEnd(old(fds)[f]), ReadEnd(old(fds)[f]))
    {
      TallyOne(closed, fds[f]);
      var ok := Close(f);
      assert ok;
    }

    /** `in_parent`.  A capture's reading end stays open: a task reads from it. */
    method InParent(h: Handler, ghost p: ProcId, ghost name: FdName, ghost fd: Fd)
      requires ParseFd(name).Some? && (fd.PipeRead? ==> ParseFd(fd.name).Some?)
      requires Handles(h, p, name, fd, fds)
      modifies `fds, `closed
      ensures fds == old(fds) - Shut(h) && Tally(old(closed), closed, WriteOf(p, name, fd), ReadOf(fd))
    {
      ShutsEnd(h, p, name, fd, fds);
      match h
      case Inherits =>
      case Closes(_) =>
      case Dups(_, _) =>
      case OpensFile(_, _) =>
      case WritesTemp(_, _) =>
      case WritesCapture(_, _, w) => CloseEnd(w);
      case WritesPipe(_, w) => CloseEnd(w);
      case ReadsPipe(_, r) => CloseEnd(r);
    }

    method RunParent(ghost p: ProcId, ghost spec: Fds, hs: seq<Handler>)
      requires Parses(spec) && SourcesParse(spec) && AllHandle(hs, p, spec, fds) && Apart(hs)
      modifies `fds, `closed
      ensures fds == old(fds) - Shuts(hs) && Tally(old(closed), closed, WritesOf(p, spec), ReadsOf(spec))
    {
      for i := 0 to |hs|
        invariant ParentRun(p, spec, hs, i, old(fds), fds)
        invariant Tally(old(closed), closed, WritesOf(p, spec[..i]), ReadsOf(spec[..i]))
      {
        ghost var c := closed;
        ParentNext(p, spec, hs, i, old(fds), fds);
        InParent(hs[i], p, spec[i].0, spec[i].1);
        TallyNext(p, spec, i, old(closed), c, closed);
      }
      assert hs[..|hs|] == hs && spec[..|hs|] == spec;
    }

    /** One round of the loop of `start_procs`: forks and wires a proc. */
    method StartOne(p: ProcId, spec: Fds, canOpen: string -> bool, targets: set<int>) returns (child: Child)
      requires Parses(spec) && SourcesParse(spec) && Distinct(spec) && Targets(spec, targets)
      requires Sound(Pipes()) && targets !! Waiting(ends)
      requires Fits(WritesOf(p, spec), WriteTaken(ends)) && Fits(ReadsOf(spec), ReadTaken(ends))
      requires forall n :: Captured((p, n)) !in made
      modifies this
      ensures Started(p, spec, old(Pipes()), Pipes(), child, canOpen, targets)
      ensures Tally(old(closed), closed, WritesOf(p, spec), ReadsOf(spec))
    {
      var hs := MakeFdHandlers(p, spec, targets);
      ghost var s1 := Pipes();
      ReadyToFork(p, spec, hs, old(Pipes()), s1, targets);
      var forked := new Process(fds, ends);
      var ok := forked.RunChild(p, spec, hs, canOpen, targets);
      child := Child(ok, forked.fds);
      StartedNow(p, spec, hs, old(Pipes()), s1, child, canOpen, targets);
      RunParent(p, spec, hs);
    }

    /** `start_procs`, as far as fds go: nothing is started unless the validator accepts the specs. */
    method StartProcs(procs: Procs, canOpen: string -> bool, targets: set<int>, failAt: nat)
      returns (e: Option<Error>, children: seq<Child>)
      requires forall i :: 0 <= i < |procs| && Parses(procs[i].fds) ==> Targets(procs[i].fds, targets)
      requires ends == map[] && made == {} && closed == []
      modifies this
      ensures e.None? <==> Accepted(procs)
      ensures e.Some? ==> Describes(e.value, procs) && children == [] && fds == old(fds) && closed == []
      ensures e.None? ==> |children| == if failAt < |procs| then failAt + 1 else |procs|
      ensures e.None? ==> forall i :: 0 <= i < |children| ==> ChildWired(procs[i], old(fds), children[i], canOpen)
      ensures e.None? && NothingBetween(old(fds)) ==>
                && (forall i :: 0 <= i < |children| && children[i].ok ==> Isolated(procs[i], children[i]))
                && (NothingBetween(fds) <==> failAt >= |procs| || CleanAt(procs, failAt))
      ensures e.None? && failAt >= |procs| ==>
                && WriteEnds(closed) == ReadEnds(closed) == Writes(procs)
                && (forall f :: f in old(fds) ==> OpenTo(fds, f, old(fds)[f]))
                && (forall f :: f in fds && f !in old(fds) ==> IsCapture(fds[f]))
                && (forall i :: 0 <= i < |procs| ==> CapturesHeld(procs[i].procId, procs[i].fds, fds))
    {
      children := [];
      e := ValidateProcsFds(procs);
      if e.None? {
        children := StartAccepted(procs, canOpen, targets, failAt);
      }
    }

    /** The loop of `start_procs`, for specs that the validator accepts, in any order, with fds
        from `pipe` that no spec is about.  All unwrapping succeeds.  Every child that is ready to
        exec has exactly the fds that its spec means, and holds a writing end between procs exactly
        where its own spec names it.

        If all slices can be set up, no end is left afterwards, and the agent, which has closed
        each end once, holds none.  Otherwise the loop is left at proc `failAt`, the last one forked,
        and then the agent holds no end if and only if none was waiting and that proc asks for none. */
    method StartAccepted(procs: Procs, canOpen: string -> bool, targets: set<int>, failAt: nat)
      returns (children: seq<Child>)
      requires Accepted(procs) && forall i :: 0 <= i < |procs| ==> Targets(procs[i].fds, targets)
      requires ends == map[] && made == {} && closed == []
      modifies this
      ensures |children| == if failAt < |procs| then failAt + 1 else |procs|
      ensures forall i :: 0 <= i < |children| ==> ChildOf(procs[i], old(fds), children[i], canOpen)
      ensures forall i :: 0 <= i < |children| ==> ChildWired(procs[i], old(fds), children[i], canOpen)
      ensures NothingBetween(old(fds)) ==>
                && (forall i :: 0 <= i < |children| && children[i].ok ==> Isolated(procs[i], children[i]))
                && (NothingBetween(fds) <==> failAt >= |procs| || CleanAt(procs, failAt))
      ensures failAt >= |procs| ==>
                && Grows(old(fds), fds)
                && WriteEnds(closed) == ReadEnds(closed) == Writes(procs)
                && (forall k :: k in Writes(procs) ==> Writes(procs)[k] == 1)
                && (forall f :: f in old(fds) ==> OpenTo(fds, f, old(fds)[f]))
                && (forall f :: f in fds && f !in old(fds) ==> IsCapture(fds[f]))
                && (forall i :: 0 <= i < |procs| ==> CapturesHeld(procs[i].procId, procs[i].fds, fds))
    {
      var n := if failAt < |procs| then failAt else |procs|;
      children := StartAll(procs, canOpen, targets, n);
      if n < |procs| {
        children := StartFailing(procs, n, old(fds), children, canOpen, targets);
      } else {
        AllTaken(procs, old(fds), Pipes(), children, canOpen, targets);
        AllClosed(procs, old(fds), Pipes(), closed, children, canOpen, targets);
        var count := ClosePipes();
        assert count == 0;
      }
      ChildrenIsolated(procs, old(fds), children, canOpen);
      NewCaptures(old(fds), fds);
    }

    /** The first `n` procs, whose slices can be set up. */
    method StartAll(procs: Procs, canOpen: string -> bool, targets: set<int>, n: nat) returns (children: seq<Child>)
      requires Accepted(procs) && n <= |procs| && forall i :: 0 <= i < n ==> Targets(procs[i].fds, targets)
      requires ends == map[] && made == {} && closed == []
      modifies this
      ensures Begun(procs, n, old(fds), Pipes(), children, canOpen, targets)
      ensures Tally([], closed, Writes(procs[..n]), Reads(procs[..n]))
    {
      children := [];
      StartFirst(procs, canOpen, targets);
      for i := 0 to n
        invariant Begun(procs, i, old(fds), Pipes(), children, canOpen, targets)
        invariant Tally([], closed, Writes(procs[..i]), Reads(procs[..i]))
      {
        children := StartNext(procs, i, old(fds), children, canOpen, targets);
      }
    }

    /** A proc whose slice cannot be set up: it is forked, and then its handlers and the pipes are
        dropped, which closes temporary files only.  It never execs. */
    method StartFailing(procs: Procs, i: nat, ghost first: Table, children: seq<Child>, canOpen: string -> bool,
        targets: set<int>) returns (r: seq<Child>)
      requires Accepted(procs) && i < |procs| && Targets(procs[i].fds, targets)
      requires Begun(procs, i, first, Pipes(), children, canOpen, targets)
      modifies this
      ensures Forked(procs, i + 1, first, r, canOpen)
      ensures NothingBetween(first) ==> (NothingBetween(fds) <==> CleanAt(procs, i))
    {
      ghost var s := Pipes();
      NextFits(procs, i, first, s, children, canOpen, targets);
      var hs := MakeFdHandlers(procs[i].procId, procs[i].fds, targets);
      ghost var s1 := Pipes();
      ReadyToFork(procs[i].procId, procs[i].fds, hs, s, s1, targets);
      var forked := new Process(fds, ends);
      var ok := forked.RunChild(procs[i].procId, procs[i].fds, hs, canOpen, targets);
      r := children + [Child(ok, forked.fds)];
      FailingForked(procs, i, first, s, children, canOpen, targets, hs, s1, Child(ok, forked.fds));
      DropHandlers(procs[i].procId, procs[i].fds, hs);
      LeavesBetween(procs, i, first, s, children, canOpen, targets, hs, s1);
      TempsBetween(s1.fds, fds);
    }

    /** Dropping handlers closes their temporary files. */
    method DropHandlers(ghost p: ProcId, ghost spec: Fds, hs: seq<Handler>)
      requires Parses(spec) && SourcesParse(spec) && AllHandle(hs, p, spec, fds) && Apart(hs)
      modifies `fds, `closed
      ensures ClosesTemps(old(fds), fds) && forall i :: 0 <= i < |hs| && hs[i].WritesTemp? ==> hs[i].fileFd !in fds
    {
      for i := 0 to |hs|
        invariant ClosesTemps(old(fds), fds)
        invariant forall j :: 0 <= j < i && hs[j].WritesTemp? ==> hs[j].fileFd !in fds
      {
        if hs[i].WritesTemp? {
          assert Handles(hs[i], p, spec[i].0, spec[i].1, old(fds));
          var _ := Close(hs[i].fileFd);
        }
      }
    }

    lemma StartFirst(procs: Procs, canOpen: string -> bool, targets: set<int>)
      requires Accepted(procs) && ends == map[] && made == {} && closed == []
      ensures Begun(procs, 0, fds, Pipes(), [], canOpen, targets)
      ensures Tally([], closed, Writes(procs[..0]), Reads(procs[..0]))
    {
      assert Waiting(ends) == {};
      assert Quiet(Pipes()) == fds;
    }

    method StartNext(procs: Procs, i: nat, ghost first: Table, children: seq<Child>, canOpen: string -> bool,
        targets: set<int>)
      returns (r: seq<Child>)
      requires Accepted(procs) && i < |procs| && Targets(procs[i].fds, targets)
      requires Begun(procs, i, first, Pipes(), children, canOpen, targets)
      requires Tally([], closed, Writes(procs[..i]), Reads(procs[..i]))
      modifies this
      ensures Begun(procs, i + 1, first, Pipes(), r, canOpen, targets)
      ensures Tally([], closed, Writes(procs[..i + 1]), Reads(procs[..i + 1]))
    {
      ghost var s, c := Pipes(), closed;
      NextFits(procs, i, first, s, children, canOpen, targets);
      var child := StartOne(procs[i].procId, procs[i].fds, canOpen, targets);
      BegunNext(procs, i, first, s, children, canOpen, targets, Pipes(), child);
      TallyThen(procs, i, c, closed);
      r := children + [child];
    }
  }

  lemma NewCaptures(t: Table, u: Table)
    ensures Grows(t, u) ==> forall f :: f in u && f !in t ==> IsCapture(u[f])
  {
    if Grows(t, u) {
      forall f | f in u && f !in t ensures IsCapture(u[f]) {
        KeptCapture(u[f]);
      }
    }
  }

  lemma ChildrenIsolated(procs: Procs, first: Table, children: seq<Child>, canOpen: string -> bool)
    requires Accepted(procs) && |children| <= |procs|
    requires forall i :: 0 <= i < |children| ==> ChildOf(procs[i], first, children[i], canOpen)
    ensures forall i :: 0 <= i < |children| ==> ChildWired(procs[i], first, children[i], canOpen)
    ensures NothingBetween(first) ==>
              forall i :: 0 <= i < |children| && children[i].ok ==> Isolated(procs[i], children[i])
  {
    forall i | 0 <= i < |children| ensures ChildWired(procs[i], first, children[i], canOpen) {
      ChildIsWired(procs[i], first, children[i], canOpen);
    }
    if NothingBetween(first) {
      forall i | 0 <= i < |children| && children[i].ok ensures Isolated(procs[i], children[i]) {
        ChildIsolated(procs[i], first, children[i], canOpen);
      }
    }
  }

  lemma AllClosed(procs: Procs, first: Table, s: Pipework, closed: seq<Desc>, children: seq<Child>,
                  canOpen: string -> bool, targets: set<int>)
    requires Accepted(procs) && Begun(procs, |procs|, first, s, children, canOpen, targets)
    requires Tally([], closed, Writes(procs[..|procs|]), Reads(procs[..|procs|]))
    ensures NothingBetween(first) ==> NothingBetween(Quiet(s))
    ensures WriteEnds(closed) == ReadEnds(closed) == Writes(procs)
    ensures forall k :: k in Writes(procs) ==> Writes(procs)[k] == 1
  {
    if NothingBetween(first) {
      GrownNothingBetween(first, Quiet(s));
    }
    assert procs[..|procs|] == procs;
    forall k | k in Writes(procs) ensures Writes(procs)[k] == 1 {
      WritesOnce(procs, k);
    }
  }

  //----------------------------------------------------------------------------
  // What a slice that cannot be set up leaves

  /** A batch of a writer and a reader. */
  const BATCH: Procs := [
    ProcSpec("writer", [("stdout", PipeWrite)]),
    ProcSpec("reader", [("stdin", PipeRead("writer", "stdout"))])]

  /** The validator accepts it, and if the slice of either proc cannot be set up, the agent keeps ends
      of the pipe. */
  lemma BatchLeaks(failAt: nat)
    requires failAt < |BATCH|
    ensures Accepted(BATCH) && !CleanAt(BATCH, failAt)
  {
    var writer, reader := BATCH[0], BATCH[1];
    var k: Key := ("writer", 1);
    OneFd("writer", "stdout", PipeWrite);
    OneFd("reader", "stdin", PipeRead("writer", "stdout"));
    assert WritesOf("writer", writer.fds) == multiset{k} && ReadsOf(writer.fds) == multiset{};
    assert WritesOf("reader", reader.fds) == multiset{} && ReadsOf(reader.fds) == multiset{k};
    OneProc(writer);
    TwoProcs(writer, reader);
    assert BATCH == [writer, reader] && BATCH[..1] == [writer] && BATCH[..0] == [];
    assert k in multiset{k};
  }

  lemma OneFd(p: ProcId, name: FdName, fd: Fd)
    ensures WritesOf(p, [(name, fd)]) == WriteOf(p, name, fd) && ReadsOf([(name, fd)]) == ReadOf(fd)
  {
    assert [(name, fd)][..0] == [];
  }

  lemma OneProc(a: ProcSpec)
    ensures Writes([a]) == WritesOf(a.procId, a.fds) && Reads([a]) == ReadsOf(a.fds)
  {
    assert [a][..0] == [];
  }

  lemma TwoProcs(a: ProcSpec, b: ProcSpec)
    ensures Writes([a, b]) == WritesOf(a.procId, a.fds) + WritesOf(b.procId, b.fds)
    ensures Reads([a, b]) == ReadsOf(a.fds) + ReadsOf(b.fds)
  {
    OneProc(a);
    assert [a, b][..1] == [a];
  }

  /** Every child of a later batch inherits what the agent has kept open, but where its own spec says
      otherwise: so a reader that waits for the end of a leaked pipe waits for all later procs. */
  lemma LeakInherited(spec: ProcSpec, first: Table, child: Child, canOpen: string -> bool, f: int)
    requires Parses(spec.fds) && SourcesParse(spec.fds) && ChildOf(spec, first, child, canOpen)
    requires f in first && Silent(spec.fds, f)
    ensures OpenTo(child.fds, f, first[f])
  {
    var base :| Grows(first, base) && child.fds == Meaning(spec.procId, spec.fds, base, canOpen);
    assert OpenTo(base, f, first[f]);
    MeaningFrom(spec.procId, spec.fds, base, canOpen, 0, f);
    assert spec.fds[..0] == [];
  }
}
