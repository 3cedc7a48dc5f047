/** Fd names and the validation of fd specs (src/spec.rs, src/fd.rs). */
module Spec {
  import opened Proto

  const MIN_FD := -0x8000_0000
  const MAX_FD := 0x7fff_ffff
  type RawFd = n: int | MIN_FD <= n <= MAX_FD

  predicate IsDigit(c: char) {
    '0' <= c <= '9'
  }

  predicate IsNumber(s: string) {
    |s| > 0 && forall i :: 0 <= i < |s| ==> IsDigit(s[i])
  }

  function DigitValue(c: char): (d: nat)
    requires IsDigit(c)
  {
    c as int - '0' as int
  }

  /** The value of a string of digits. */
  function NumberValue(s: string): nat
    requires IsNumber(s)
  {
    (if |s| == 1 then 0 else 10 * NumberValue(s[..|s| - 1])) + DigitValue(s[|s| - 1])
  }

  function InRange(n: int): Option<RawFd> {
    if MIN_FD <= n <= MAX_FD then Some(n) else None
  }

  /** Parsing of a signed 32-bit number: an optional sign, then digits, in range. */
  function ParseInt(s: string): Option<RawFd> {
    if IsNumber(s) then InRange(NumberValue(s))
    else if |s| > 0 && s[0] == '+' && IsNumber(s[1..]) then InRange(NumberValue(s[1..]))
    else if |s| > 0 && s[0] == '-' && IsNumber(s[1..]) then InRange(0 - NumberValue(s[1..]))
    else None
  }

  /** `parse_fd`; `None` is the bad-fd error. */
  function ParseFd(name: string): Option<RawFd> {
    if name == "stdin" then Some(0)
    else if name == "stdout" then Some(1)
    else if name == "stderr" then Some(2)
    else ParseInt(name)
  }

  /** The value of a string of digits: every further digit makes it ten times as much and adds itself. */
  lemma NumberValueExactly(s: string, c: char)
    requires '0' <= c <= '9' && forall i :: 0 <= i < |s| ==> '0' <= s[i] <= '9'
    ensures IsNumber(s + [c]) && NumberValue(s + [c]) == (if s == [] then 0 else 10 * NumberValue(s)) + c as int - 48
  {
    assert (s + [c])[..|s|] == s;
  }

  /** `name` is an optional sign and then digits, which together are number `n`. */
  ghost predicate Numeral(name: string, n: int) {
    exists sign: string, digits :: NumeralOf(name, sign, digits, n)
  }

  predicate NumeralOf(name: string, sign: string, digits: string, n: int) {
    && sign in {"", "+", "-"} && name == sign + digits
    && |digits| > 0 && (forall i :: 0 <= i < |digits| ==> '0' <= digits[i] <= '9')
    && n == if sign == "-" then 0 - NumberValue(digits) else NumberValue(digits)
  }

  /** What names are of which fd: those of the standard fds, and signed 32-bit numbers. */
  lemma ParseFdExactly(name: string)
    ensures ParseFd("stdin") == Some(0) && ParseFd("stdout") == Some(1) && ParseFd("stderr") == Some(2)
    ensures name !in {"stdin", "stdout", "stderr"} ==>
              forall n: int :: (ParseFd(name).Some? && ParseFd(name).value == n)
                               <==> Numeral(name, n) && -2147483648 <= n <= 2147483647
  {
    if name !in {"stdin", "stdout", "stderr"} {
      forall n: int
        ensures (ParseFd(name).Some? && ParseFd(name).value == n)
                <==> Numeral(name, n) && -2147483648 <= n <= 2147483647
      {
        if Numeral(name, n) {
          var sign, digits :| NumeralOf(name, sign, digits, n);
          NumeralParses(name, sign, digits, n);
        }
        if ParseFd(name).Some? && ParseFd(name).value == n {
          ParsedNumeral(name, n);
        }
      }
    }
  }

  lemma NumeralParses(name: string, sign: string, digits: string, n: int)
    requires NumeralOf(name, sign, digits, n)
    ensures ParseInt(name) == InRange(n)
  {
    if sign == "" {
      assert name == digits;
    } else {
      assert name[1..] == digits && name[0] == sign[0];
    }
  }

  lemma ParsedNumeral(name: string, n: int)
    requires ParseInt(name).Some? && ParseInt(name).value == n
    ensures Numeral(name, n) && -2147483648 <= n <= 2147483647
  {
    if IsNumber(name) {
      assert NumeralOf(name, "", name, n);
    } else {
      var sign := [name[0]];
      assert name == sign + name[1..];
      assert NumeralOf(name, sign, name[1..], n);
    }
  }

  //----------------------------------------------------------------------------
  // Fd names

  function DigitChar(d: nat): char
    requires d < 10
  {
    (d + '0' as int) as char
  }

  /** A natural number in decimal. */
  function Decimal(n: nat): string {
    (if n < 10 then "" else Decimal(n / 10)) + [DigitChar(n % 10)]
  }

  /** A signed number in decimal. */
  function IntName(n: int): string {
    if n < 0 then "-" + Decimal(-n) else Decimal(n)
  }

  /** `get_fd_name`. */
  function GetFdName(fd: RawFd): string {
    if fd == 0 then "stdin" else if fd == 1 then "stdout" else if fd == 2 then "stderr" else IntName(fd)
  }

  /** Reading a number in decimal gives the number back. */
  lemma {:induction false} DecimalValue(n: nat)
    ensures IsNumber(Decimal(n)) && NumberValue(Decimal(n)) == n
  {
    var s := Decimal(n);
    if n >= 10 {
      DecimalValue(n / 10);
      assert s[..|s| - 1] == Decimal(n / 10);
    }
  }

  lemma IntNameValue(fd: RawFd)
    ensures ParseInt(IntName(fd)) == Some(fd)
  {
    var n: int := fd;
    if n < 0 {
      DecimalValue(-n);
      assert IntName(n)[1..] == Decimal(-n);
    } else {
      DecimalValue(n);
    }
  }

  lemma IntNameStart(n: int)
    ensures |IntName(n)| > 0 && (IntName(n)[0] == '-' || IsDigit(IntName(n)[0]))
  {
    if n >= 0 {
      DecimalValue(n);
    }
  }

  /** Parsing the number of an fd, as it is printed in errors, gives the fd back. */
  lemma FdNameOf(fd: RawFd)
    ensures ParseFd(IntName(fd)) == Some(fd)
  {
    IntNameValue(fd);
    IntNameStart(fd);
    assert IntName(fd)[0] != 's';
  }

  /** So does parsing its name. */
  lemma FdNameRoundTrip(fd: RawFd)
    ensures ParseFd(GetFdName(fd)) == Some(fd)
  {
    FdNameOf(fd);
  }

  lemma {:induction false} DecimalStart(n: nat)
    requires n > 0
    ensures Decimal(n)[0] != '0'
  {
    if n >= 10 {
      DecimalStart(n / 10);
    }
  }

  /** A number in decimal: with a minus sign if it is negative, and without superfluous zeros. */
  lemma IntNameExactly(n: int)
    ensures IntName(0) == "0"
    ensures n != 0 ==>
              var sign, size := if n < 0 then "-" else "", if n < 0 then -n else n;
              exists digits :: IntName(n) == sign + digits && IsNumber(digits) && digits[0] != '0'
                               && NumberValue(digits) == size
  {
    if n != 0 {
      var size := if n < 0 then -n else n;
      DecimalValue(size);
      DecimalStart(size);
      assert IntName(n) == (if n < 0 then "-" else "") + Decimal(size);
    }
  }

  /** The names of the standard fds; any other fd is called by its number. */
  lemma GetFdNameExactly(fd: RawFd)
    ensures GetFdName(0) == "stdin" && GetFdName(1) == "stdout" && GetFdName(2) == "stderr"
    ensures fd !in {0, 1, 2} ==>
              var n: int := fd;
              var sign, size := if n < 0 then "-" else "", if n < 0 then -n else n;
              exists digits :: GetFdName(fd) == sign + digits && IsNumber(digits) && digits[0] != '0'
                               && NumberValue(digits) == size
  {
    IntNameExactly(fd);
  }

  //----------------------------------------------------------------------------
  // Fd specs

  type FdName = string

  datatype CaptureMode = TempFile | Memory

  /** What a proc's fd is attached to. */
  datatype Fd =
    | Inherit
    | Close
    | Null
    | File(path: string)
    | Dup(fd: RawFd)
    | Capture(mode: CaptureMode)
    | PipeWrite
    | PipeRead(procId: ProcId, name: FdName)

  /** An fd of a proc: with `PipeWrite`, the writing end of a pipe. */
  type Key = (ProcId, RawFd)

  type Fds = seq<(FdName, Fd)>

  datatype ProcSpec = ProcSpec(procId: ProcId, fds: Fds)

  /** The specs of a dictionary: no id occurs twice. */
  type Procs = procs: seq<ProcSpec> | forall i, j :: 0 <= i < j < |procs| ==> procs[i].procId != procs[j].procId
    witness []

  datatype Error =
    | BadFd(name: FdName)
    | DuplicateFd(name: FdName)
    | UnmatchedReadFd(procId: ProcId, name: FdName)
    | UnmatchedWriteFd(procId: ProcId, name: FdName)

  predicate Parses(fds: Fds) {
    forall i :: 0 <= i < |fds| ==> ParseFd(fds[i].0).Some?
  }

  /** No two names are of the same fd. */
  predicate Distinct(fds: Fds) {
    forall i, j :: 0 <= i < j < |fds| ==> ParseFd(fds[i].0) != ParseFd(fds[j].0)
  }

  predicate SourcesParse(fds: Fds) {
    forall i :: 0 <= i < |fds| && fds[i].1.PipeRead? ==> ParseFd(fds[i].1.name).Some?
  }

  /** The writing end that an fd asks for. */
  function WriteOf(p: ProcId, name: FdName, fd: Fd): multiset<Key> {
    if fd.PipeWrite? && ParseFd(name).Some? then multiset{(p, ParseFd(name).value)} else multiset{}
  }

  /** The writing end that an fd asks to read from. */
  function ReadOf(fd: Fd): multiset<Key> {
    if fd.PipeRead? && ParseFd(fd.name).Some? then multiset{(fd.procId, ParseFd(fd.name).value)} else multiset{}
  }

  function WritesOf(p: ProcId, fds: Fds): multiset<Key> {
    if fds == [] then multiset{}
    else WritesOf(p, fds[..|fds| - 1]) + WriteOf(p, fds[|fds| - 1].0, fds[|fds| - 1].1)
  }

  function ReadsOf(fds: Fds): multiset<Key> {
    if fds == [] then multiset{} else ReadsOf(fds[..|fds| - 1]) + ReadOf(fds[|fds| - 1].1)
  }

  function Writes(procs: seq<ProcSpec>): multiset<Key> {
    if procs == [] then multiset{}
    else Writes(procs[..|procs| - 1]) + WritesOf(procs[|procs| - 1].procId, procs[|procs| - 1].fds)
  }

  function Reads(procs: seq<ProcSpec>): multiset<Key> {
    if procs == [] then multiset{} else Reads(procs[..|procs| - 1]) + ReadsOf(procs[|procs| - 1].fds)
  }

  /** All fds have names of their own. */
  predicate Named(procs: seq<ProcSpec>) {
    forall i :: 0 <= i < |procs| ==> Parses(procs[i].fds) && Distinct(procs[i].fds)
  }

  /** What the validator is for: all fds have names of their own, all sources are names, and
      every writing end is read from exactly once. */
  ghost predicate Accepted(procs: seq<ProcSpec>) {
    && Named(procs)
    && (forall i :: 0 <= i < |procs| ==> SourcesParse(procs[i].fds))
    && Reads(procs) == Writes(procs)
  }

  /** An error that `e` describes is in the specs. */
  ghost predicate Describes(e: Error, procs: seq<ProcSpec>) {
    match e
    case BadFd(name) =>
      ParseFd(name).None?
      && exists i, j :: 0 <= i < |procs| && 0 <= j < |procs[i].fds|
                        && var fd := procs[i].fds[j];
                           name == fd.0 || (Named(procs) && fd.1.PipeRead? && name == fd.1.name)
    case DuplicateFd(name) =>
      exists i, j, k :: 0 <= i < |procs| && 0 <= j < k < |procs[i].fds|
                        && procs[i].fds[k].0 == name && ParseFd(procs[i].fds[j].0) == ParseFd(name) != None
    case UnmatchedReadFd(p, name) =>
      Named(procs) && ParseFd(name).Some?
      && Reads(procs)[(p, ParseFd(name).value)] > Writes(procs)[(p, ParseFd(name).value)]
    case UnmatchedWriteFd(p, name) =>
      Named(procs) && ParseFd(name).Some? && name == IntName(ParseFd(name).value)
      && Writes(procs)[(p, ParseFd(name).value)] > Reads(procs)[(p, ParseFd(name).value)]
  }

  //----------------------------------------------------------------------------
  // The validator

  /** The first `i` fds have names of their own. */
  predicate NamedTo(fds: Fds, i: nat)
    requires i <= |fds|
  {
    && (forall j :: 0 <= j < i ==> ParseFd(fds[j].0).Some?)
    && (forall j, k :: 0 <= j < k < i ==> ParseFd(fds[j].0) != ParseFd(fds[k].0))
  }

  /** What fds the first `i` names are of. */
  function Numbers(fds: Fds, i: nat): set<RawFd>
    requires i <= |fds|
  {
    if i == 0 then {}
    else Numbers(fds, i - 1) + match ParseFd(fds[i - 1].0) case Some(n) => {n} case None => {}
  }

  lemma {:induction false} NumbersMember(fds: Fds, i: nat, n: RawFd)
    requires i <= |fds|
    ensures n in Numbers(fds, i) <==> exists j :: 0 <= j < i && ParseFd(fds[j].0) == Some(n)
  {
    if i > 0 {
      NumbersMember(fds, i - 1, n);
    }
  }

  /** The first loop, for one proc. */
  method CheckNames(fds: Fds) returns (e: Option<Error>)
    ensures e.None? ==> Parses(fds) && Distinct(fds)
    ensures e.Some? ==>
              exists k :: 0 <= k < |fds|
                          && ((e.value == BadFd(fds[k].0) && ParseFd(fds[k].0).None?)
                              || (e.value == DuplicateFd(fds[k].0) && ParseFd(fds[k].0).Some?
                                  && exists j :: 0 <= j < k && ParseFd(fds[j].0) == ParseFd(fds[k].0)))
  {
    var numbers: set<RawFd> := {};
    for i := 0 to |fds|
      invariant NamedTo(fds, i) && numbers == Numbers(fds, i)
    {
      var n := ParseFd(fds[i].0);
      if n.None? {
        return Some(BadFd(fds[i].0));
      }
      NumbersMember(fds, i, n.value);
      if n.value in numbers {
        return Some(DuplicateFd(fds[i].0));
      }
      numbers := numbers + {n.value};
    }
    e := None;
  }

  /** The second loop, for one proc.  No writing end is met twice. */
  method CollectWrites(p: ProcId, fds: Fds, unmatched: set<Key>) returns (r: set<Key>)
    requires Parses(fds) && Distinct(fds) && forall n :: (p, n) !in unmatched
    ensures multiset(r) == multiset(unmatched) + WritesOf(p, fds)
    ensures forall k :: k in r ==> k in unmatched || k.0 == p
  {
    r := unmatched;
    for i := 0 to |fds|
      invariant multiset(r) == multiset(unmatched) + WritesOf(p, fds[..i])
      invariant forall k :: k in r ==>
                  k in unmatched || (k.0 == p && exists j :: 0 <= j < i && ParseFd(fds[j].0) == Some(k.1))
    {
      assert fds[..i + 1][..i] == fds[..i];
      if fds[i].1.PipeWrite? {
        var key := (p, ParseFd(fds[i].0).value);
        assert key !in r;
        OneMore(r, key);
        r := r + {key};
      }
    }
    assert fds[..|fds|] == fds;
  }

  /** Fd `k` reads from something that is not a name, or that is read from more often than it is
      in `unmatched`. */
  predicate ReadErrorAt(fds: Fds, unmatched: set<Key>, e: Error, k: nat)
    requires k < |fds|
  {
    && fds[k].1.PipeRead?
    && if ParseFd(fds[k].1.name).None? then e == BadFd(fds[k].1.name)
       else
         var key := (fds[k].1.procId, ParseFd(fds[k].1.name).value);
         e == UnmatchedReadFd(key.0, fds[k].1.name) && ReadsOf(fds)[key] > multiset(unmatched)[key]
  }

  ghost predicate ReadError(fds: Fds, unmatched: set<Key>, e: Error) {
    exists k :: 0 <= k < |fds| && ReadErrorAt(fds, unmatched, e, k)
  }

  lemma MatchOne(fds: Fds, unmatched: set<Key>, r: set<Key>, i: nat, key: Key)
    requires i < |fds| && multiset(unmatched) == multiset(r) + ReadsOf(fds[..i])
    requires ReadOf(fds[i].1) == multiset{key} && key in r
    ensures multiset(unmatched) == multiset(r - {key}) + ReadsOf(fds[..i + 1])
  {
    OneMore(r - {key}, key);
    assert r - {key} + {key} == r;
    assert fds[..i + 1][..i] == fds[..i];
  }

  lemma CannotMatch(fds: Fds, unmatched: set<Key>, r: set<Key>, i: nat, key: Key)
    requires i < |fds| && multiset(unmatched) == multiset(r) + ReadsOf(fds[..i])
    requires fds[i].1.PipeRead? && ParseFd(fds[i].1.name) == Some(key.1) && fds[i].1.procId == key.0 && key !in r
    ensures ReadError(fds, unmatched, UnmatchedReadFd(key.0, fds[i].1.name))
  {
    assert fds[..i + 1][..i] == fds[..i];
    ReadsOfPrefix(fds, i + 1);
    assert ReadErrorAt(fds, unmatched, UnmatchedReadFd(key.0, fds[i].1.name), i);
  }

  /** The third loop, for one proc. */
  method MatchReads(fds: Fds, unmatched: set<Key>) returns (e: Option<Error>, r: set<Key>)
    ensures e.None? ==> SourcesParse(fds) && multiset(unmatched) == multiset(r) + ReadsOf(fds)
    ensures e.Some? ==> ReadError(fds, unmatched, e.value)
  {
    r := unmatched;
    for i := 0 to |fds|
      invariant forall j :: 0 <= j < i && fds[j].1.PipeRead? ==> ParseFd(fds[j].1.name).Some?
      invariant multiset(unmatched) == multiset(r) + ReadsOf(fds[..i])
    {
      if fds[i].1.PipeRead? {
        var n := ParseFd(fds[i].1.name);
        if n.None? {
          assert ReadErrorAt(fds, unmatched, BadFd(fds[i].1.name), i);
          return Some(BadFd(fds[i].1.name)), r;
        }
        var key := (fds[i].1.procId, n.value);
        if key !in r {
          CannotMatch(fds, unmatched, r, i, key);
          return Some(UnmatchedReadFd(key.0, fds[i].1.name)), r;
        }
        MatchOne(fds, unmatched, r, i, key);
        r := r - {key};
      } else {
        assert fds[..i + 1][..i] == fds[..i];
      }
    }
    assert fds[..|fds|] == fds;
    e := None;
  }

  lemma OneMore(s: set<Key>, k: Key)
    requires k !in s
    ensures multiset(s + {k}) == multiset(s) + multiset{k}
  {
  }

  lemma {:induction false} ReadsOfPrefix(fds: Fds, i: nat)
    requires i <= |fds|
    ensures ReadsOf(fds[..i]) <= ReadsOf(fds)
    decreases |fds|
  {
    if i == |fds| {
      assert fds[..i] == fds;
    } else {
      ReadsOfPrefix(fds[..|fds| - 1], i);
      assert fds[..|fds| - 1][..i] == fds[..i];
    }
  }

  lemma {:induction false} WritesOfPrefix(p: ProcId, fds: Fds, i: nat)
    requires i <= |fds|
    ensures WritesOf(p, fds[..i]) <= WritesOf(p, fds)
    decreases |fds|
  {
    if i == |fds| {
      assert fds[..i] == fds;
    } else {
      WritesOfPrefix(p, fds[..|fds| - 1], i);
      assert fds[..|fds| - 1][..i] == fds[..i];
    }
  }

  lemma {:induction false} ReadsPrefix(procs: seq<ProcSpec>, i: nat)
    requires i <= |procs|
    ensures Reads(procs[..i]) <= Reads(procs)
    decreases |procs|
  {
    if i == |procs| {
      assert procs[..i] == procs;
    } else {
      ReadsPrefix(procs[..|procs| - 1], i);
      assert procs[..|procs| - 1][..i] == procs[..i];
    }
  }

  /** The first loop. */
  method CheckAllNames(procs: Procs) returns (e: Option<Error>)
    ensures e.None? ==> Named(procs)
    ensures e.Some? ==> Describes(e.value, procs) && !Named(procs)
  {
    for i := 0 to |procs|
      invariant Named(procs[..i])
    {
      e := CheckNames(procs[i].fds);
      if e.Some? {
        return;
      }
    }
    assert procs[..|procs|] == procs;
    e := None;
  }

  /** The second loop.  No writing end is met twice, by two procs or by one. */
  method CollectAllWrites(procs: Procs) returns (unmatched: set<Key>)
    requires Named(procs)
    ensures multiset(unmatched) == Writes(procs)
  {
    unmatched := {};
    for i := 0 to |procs|
      invariant multiset(unmatched) == Writes(procs[..i])
      invariant forall k :: k in unmatched ==> exists j :: 0 <= j < i && procs[j].procId == k.0
    {
      assert procs[..i + 1][..i] == procs[..i];
      unmatched := CollectWrites(procs[i].procId, procs[i].fds, unmatched);
    }
    assert procs[..|procs|] == procs;
  }

  /** The third loop. */
  method MatchAllReads(procs: Procs, writes: set<Key>) returns (e: Option<Error>, unmatched: set<Key>)
    requires Named(procs) && multiset(writes) == Writes(procs)
    ensures e.None? ==> (forall i :: 0 <= i < |procs| ==> SourcesParse(procs[i].fds))
    ensures e.None? ==> Writes(procs) == multiset(unmatched) + Reads(procs)
    ensures e.Some? ==> Describes(e.value, procs) && !Accepted(procs)
  {
    unmatched := writes;
    for i := 0 to |procs|
      invariant forall j :: 0 <= j < i ==> SourcesParse(procs[j].fds)
      invariant Writes(procs) == multiset(unmatched) + Reads(procs[..i])
    {
      ghost var before := unmatched;
      e, unmatched := MatchReads(procs[i].fds, unmatched);
      if e.Some? {
        Unmatched(procs, i, before, e.value);
        return;
      }
      MatchedNext(procs, i, before, unmatched);
    }
    assert procs[..|procs|] == procs;
    e := None;
  }

  lemma MatchedNext(procs: Procs, i: nat, before: set<Key>, after: set<Key>)
    requires i < |procs| && Writes(procs) == multiset(before) + Reads(procs[..i])
    requires multiset(before) == multiset(after) + ReadsOf(procs[i].fds)
    ensures Writes(procs) == multiset(after) + Reads(procs[..i + 1])
  {
    var next := procs[..i + 1];
    assert next[..i] == procs[..i];
    assert Reads(next) == Reads(procs[..i]) + ReadsOf(procs[i].fds);
  }

  /** A read that is not matched when it is met never is. */
  lemma Unmatched(procs: Procs, i: nat, before: set<Key>, e: Error)
    requires i < |procs| && Named(procs) && Writes(procs) == multiset(before) + Reads(procs[..i])
    requires ReadError(procs[i].fds, before, e)
    ensures Describes(e, procs) && !Accepted(procs)
  {
    var k :| 0 <= k < |procs[i].fds| && ReadErrorAt(procs[i].fds, before, e, k);
    if ParseFd(procs[i].fds[k].1.name).Some? {
      MoreReads(procs, i, before, (procs[i].fds[k].1.procId, ParseFd(procs[i].fds[k].1.name).value));
    }
  }

  lemma MoreReads(procs: Procs, i: nat, before: set<Key>, key: Key)
    requires i < |procs| && Writes(procs) == multiset(before) + Reads(procs[..i])
    requires ReadsOf(procs[i].fds)[key] > multiset(before)[key]
    ensures Reads(procs)[key] > Writes(procs)[key]
  {
    ReadsPrefix(procs, i + 1);
    assert procs[..i + 1][..i] == procs[..i];
    assert Reads(procs)[key] >= Reads(procs[..i])[key] + ReadsOf(procs[i].fds)[key];
  }

  lemma {:induction false} WritesPrefix(procs: seq<ProcSpec>, i: nat)
    requires i <= |procs|
    ensures Writes(procs[..i]) <= Writes(procs)
    decreases |procs|
  {
    if i == |procs| {
      assert procs[..i] == procs;
    } else {
      WritesPrefix(procs[..|procs| - 1], i);
      assert procs[..|procs| - 1][..i] == procs[..i];
    }
  }

  /** The writing ends of a proc are its own, and none is asked for twice. */
  lemma {:induction false} WritesOfOnce(p: ProcId, fds: Fds, k: Key)
    requires Parses(fds) && Distinct(fds)
    ensures WritesOf(p, fds)[k] <= 1
    ensures k in WritesOf(p, fds) ==> k.0 == p && exists j :: 0 <= j < |fds| && ParseFd(fds[j].0) == Some(k.1)
  {
    if fds != [] {
      var last := |fds| - 1;
      WritesOfOnce(p, fds[..last], k);
      if k in WritesOf(p, fds[..last]) {
        var j :| 0 <= j < last && ParseFd(fds[..last][j].0) == Some(k.1);
        assert ParseFd(fds[j].0) != ParseFd(fds[last].0);
      }
      assert k in WriteOf(p, fds[last].0, fds[last].1) ==> ParseFd(fds[last].0) == Some(k.1);
    }
  }

  lemma {:induction false} WritesOnce(procs: Procs, k: Key)
    requires Named(procs)
    ensures Writes(procs)[k] <= 1
    ensures k in Writes(procs) ==> exists i :: 0 <= i < |procs| && procs[i].procId == k.0
  {
    if procs != [] {
      var last := |procs| - 1;
      WritesOnce(procs[..last], k);
      WritesOfOnce(procs[last].procId, procs[last].fds, k);
      if k in Writes(procs[..last]) {
        var i :| 0 <= i < last && procs[..last][i].procId == k.0;
        assert procs[i].procId == k.0;
      }
    }
  }

  /** The validator accepts exactly the specs that it is meant to accept, and otherwise reports
      an error that they have. */
  method ValidateProcsFds(procs: Procs) returns (e: Option<Error>)
    ensures e.None? <==> Accepted(procs)
    ensures e.Some? ==> Describes(e.value, procs)
  {
    e := CheckAllNames(procs);
    if e.Some? {
      return;
    }
    var unmatched := CollectAllWrites(procs);
    e, unmatched := MatchAllReads(procs, unmatched);
    if e.None? && unmatched != {} {
      var key :| key in unmatched;
      FdNameOf(key.1);
      e := Some(UnmatchedWriteFd(key.0, IntName(key.1)));
      assert multiset(unmatched)[key] == 1;
    }
  }

  //----------------------------------------------------------------------------
  // What is accepted, fd by fd

  /** Fd `j` of a proc reads from `k`. */
  predicate ReadsAt(fds: Fds, j: int, k: Key) {
    0 <= j < |fds| && fds[j].1.PipeRead? && fds[j].1.procId == k.0 && ParseFd(fds[j].1.name) == Some(k.1)
  }

  /** Fd `j` of `spec` is `k`, and is to be written to a pipe. */
  predicate WritesAt(spec: ProcSpec, j: int, k: Key) {
    0 <= j < |spec.fds| && spec.fds[j].1.PipeWrite? && spec.procId == k.0 && ParseFd(spec.fds[j].0) == Some(k.1)
  }

  predicate IsReader(procs: seq<ProcSpec>, i: int, j: int, k: Key) {
    0 <= i < |procs| && ReadsAt(procs[i].fds, j, k)
  }

  predicate IsWriter(procs: seq<ProcSpec>, i: int, j: int, k: Key) {
    0 <= i < |procs| && WritesAt(procs[i], j, k)
  }

  ghost predicate SomeReader(procs: seq<ProcSpec>, k: Key) {
    exists i, j :: IsReader(procs, i, j, k)
  }

  ghost predicate SomeWriter(procs: seq<ProcSpec>, k: Key) {
    exists i, j :: IsWriter(procs, i, j, k)
  }

  /** No two fds read from `k`. */
  ghost predicate OneReader(procs: seq<ProcSpec>, k: Key) {
    forall i, j, a, b :: IsReader(procs, i, j, k) && IsReader(procs, a, b, k) ==> i == a && j == b
  }

  ghost predicate OneRead(fds: Fds, k: Key) {
    forall i, j :: ReadsAt(fds, i, k) && ReadsAt(fds, j, k) ==> i == j
  }

  lemma {:induction false} ReadsOfExactly(fds: Fds, k: Key)
    ensures k in ReadsOf(fds) <==> exists j :: ReadsAt(fds, j, k)
    ensures ReadsOf(fds)[k] <= 1 <==> OneRead(fds, k)
  {
    if fds != [] {
      var last := |fds| - 1;
      var front := fds[..last];
      ReadsOfExactly(front, k);
      assert forall j :: j != last ==> ReadsAt(front, j, k) == ReadsAt(fds, j, k);
      assert k in ReadOf(fds[last].1) <==> ReadsAt(fds, last, k);
      if k in ReadsOf(front) {
        var j :| ReadsAt(front, j, k);
        assert ReadsAt(fds, j, k);
      }
      if OneRead(fds, k) {
        assert OneRead(front, k);
      }
    }
  }

  lemma {:induction false} WritesOfExactly(p: ProcId, fds: Fds, k: Key)
    ensures k in WritesOf(p, fds) <==> exists j :: WritesAt(ProcSpec(p, fds), j, k)
  {
    if fds != [] {
      var last := |fds| - 1;
      WritesOfExactly(p, fds[..last], k);
      assert forall j :: j != last ==> WritesAt(ProcSpec(p, fds[..last]), j, k) == WritesAt(ProcSpec(p, fds), j, k);
      assert k in WriteOf(p, fds[last].0, fds[last].1) <==> WritesAt(ProcSpec(p, fds), last, k);
    }
  }

  lemma {:induction false} WritesExactly(procs: seq<ProcSpec>, k: Key)
    ensures k in Writes(procs) <==> SomeWriter(procs, k)
  {
    if procs != [] {
      var last := |procs| - 1;
      WritesExactly(procs[..last], k);
      WritesOfExactly(procs[last].procId, procs[last].fds, k);
      assert forall i, j :: i != last ==> IsWriter(procs[..last], i, j, k) == IsWriter(procs, i, j, k);
      assert forall j :: WritesAt(procs[last], j, k) == IsWriter(procs, last, j, k);
      assert procs[last] == ProcSpec(procs[last].procId, procs[last].fds);
    }
  }

  lemma {:induction false} ReadsExactly(procs: seq<ProcSpec>, k: Key)
    ensures k in Reads(procs) <==> SomeReader(procs, k)
  {
    if procs != [] {
      var last := |procs| - 1;
      ReadsExactly(procs[..last], k);
      ReadsOfExactly(procs[last].fds, k);
      assert forall i, j :: i != last ==> IsReader(procs[..last], i, j, k) == IsReader(procs, i, j, k);
      assert forall j :: ReadsAt(procs[last].fds, j, k) == IsReader(procs, last, j, k);
    }
  }

  lemma {:induction false} ReadsOnceExactly(procs: seq<ProcSpec>, k: Key)
    ensures Reads(procs)[k] <= 1 <==> OneReader(procs, k)
  {
    if procs != [] {
      var last := |procs| - 1;
      var front, fds := procs[..last], procs[last].fds;
      ReadsOnceExactly(front, k);
      ReadsExactly(front, k);
      ReadsOfExactly(fds, k);
      OneReaderNext(procs, k);
    }
  }

  /** No two fds of all procs, if no two of the first procs, no two of the last, and not one of each. */
  lemma OneReaderNext(procs: seq<ProcSpec>, k: Key)
    requires procs != []
    ensures var front, fds := procs[..|procs| - 1], procs[|procs| - 1].fds;
            OneReader(procs, k)
            <==> OneReader(front, k) && OneRead(fds, k) && !(SomeReader(front, k) && exists j :: ReadsAt(fds, j, k))
  {
    var last := |procs| - 1;
    var front, fds := procs[..last], procs[last].fds;
    assert forall i, j :: i != last ==> IsReader(front, i, j, k) == IsReader(procs, i, j, k);
    assert forall j :: ReadsAt(fds, j, k) == IsReader(procs, last, j, k);
    if OneReader(procs, k) {
      forall i, j | ReadsAt(fds, i, k) && ReadsAt(fds, j, k) ensures i == j {
        assert IsReader(procs, last, i, k) && IsReader(procs, last, j, k);
      }
      forall i, j, a, b | IsReader(front, i, j, k) && IsReader(front, a, b, k) ensures i == a && j == b {
        assert IsReader(procs, i, j, k) && IsReader(procs, a, b, k);
      }
    }
  }

  /** The specs that the validator accepts: all names are of fds, and no two names of a proc of the same
      fd; every fd that is written to a pipe is read by exactly one fd, and every fd that reads from one
      names an fd that is written. */
  lemma AcceptedExactly(procs: Procs)
    ensures Accepted(procs)
            <==> && (forall i, j :: 0 <= i < |procs| && 0 <= j < |procs[i].fds| ==>
                       && ParseFd(procs[i].fds[j].0).Some?
                       && (procs[i].fds[j].1.PipeRead? ==> ParseFd(procs[i].fds[j].1.name).Some?)
                       && (forall l :: 0 <= l < j ==> ParseFd(procs[i].fds[l].0) != ParseFd(procs[i].fds[j].0)))
                 && (forall k :: SomeWriter(procs, k) <==> SomeReader(procs, k))
                 && (forall k :: OneReader(procs, k))
  {
    if Accepted(procs) {
      forall k ensures (SomeWriter(procs, k) <==> SomeReader(procs, k)) && OneReader(procs, k) {
        WritesExactly(procs, k);
        ReadsExactly(procs, k);
        ReadsOnceExactly(procs, k);
        WritesOnce(procs, k);
      }
    } else if Named(procs) && (forall i :: 0 <= i < |procs| ==> SourcesParse(procs[i].fds)) {
      var k :| Reads(procs)[k] != Writes(procs)[k];
      WritesExactly(procs, k);
      ReadsExactly(procs, k);
      ReadsOnceExactly(procs, k);
      WritesOnce(procs, k);
    }
  }

  //----------------------------------------------------------------------------
  // Reporting results by fd name

  lemma GetFdNameInjective(a: RawFd, b: RawFd)
    requires GetFdName(a) == GetFdName(b)
    ensures a == b
  {
    FdNameRoundTrip(a);
    FdNameRoundTrip(b);
  }

  /** The `fds` of a result: what every handler reports, under the name of its fd. */
  function ResultFds<R>(handlers: seq<(RawFd, R)>): map<FdName, R> {
    if handlers == [] then map[]
    else ResultFds(handlers[..|handlers| - 1])[GetFdName(handlers[|handlers| - 1].0) := handlers[|handlers| - 1].1]
  }

  ghost predicate Reported<R>(r: map<FdName, R>, fd: RawFd, result: R) {
    GetFdName(fd) in r && r[GetFdName(fd)] == result
  }

  /** A name that is reported is that of a handler's fd. */
  lemma {:induction false} ResultNames<R>(handlers: seq<(RawFd, R)>, fd: RawFd)
    requires GetFdName(fd) in ResultFds(handlers)
    ensures exists i :: 0 <= i < |handlers| && handlers[i].0 == fd
  {
    var last := |handlers| - 1;
    if GetFdName(fd) == GetFdName(handlers[last].0) {
      GetFdNameInjective(fd, handlers[last].0);
    } else {
      ResultNames(handlers[..last], fd);
    }
  }

  /** Handlers of different fds have an entry each. */
  lemma {:induction false} ResultPerHandler<R>(handlers: seq<(RawFd, R)>)
    requires forall i, j :: 0 <= i < j < |handlers| ==> handlers[i].0 != handlers[j].0
    ensures |ResultFds(handlers)| == |handlers|
    ensures forall i :: 0 <= i < |handlers| ==> Reported(ResultFds(handlers), handlers[i].0, handlers[i].1)
  {
    if handlers != [] {
      var last := |handlers| - 1;
      var before := ResultFds(handlers[..last]);
      ResultPerHandler(handlers[..last]);
      if GetFdName(handlers[last].0) in before {
        ResultNames(handlers[..last], handlers[last].0);
      }
      forall i | 0 <= i < last ensures Reported(ResultFds(handlers), handlers[i].0, handlers[i].1) {
        assert Reported(before, handlers[..last][i].0, handlers[..last][i].1);
      }
    }
  }

  /** So a proc whose spec the validator accepts reports every fd of the spec, and nothing else. */
  lemma AcceptedReportsAll<R>(procs: Procs, i: nat, results: seq<R>)
    requires Accepted(procs) && i < |procs| && |results| == |procs[i].fds|
    ensures var fds := procs[i].fds;
            var r := ResultFds(seq(|fds|, j requires 0 <= j < |fds| => (ParseFd(fds[j].0).value, results[j])));
            |r| == |fds| && forall j :: 0 <= j < |fds| ==> Reported(r, ParseFd(fds[j].0).value, results[j])
  {
    var fds := procs[i].fds;
    var handlers := seq(|fds|, j requires 0 <= j < |fds| => (ParseFd(fds[j].0).value, results[j]));
    assert Parses(fds) && Distinct(fds);
    forall j, k | 0 <= j < k < |handlers| ensures handlers[j].0 != handlers[k].0 {
      assert ParseFd(fds[j].0) != ParseFd(fds[k].0);
    }
    ResultPerHandler(handlers);
    forall j | 0 <= j < |fds| ensures Reported(ResultFds(handlers), ParseFd(fds[j].0).value, results[j]) {
      assert Reported(ResultFds(handlers), handlers[j].0, handlers[j].1);
    }
  }
}
