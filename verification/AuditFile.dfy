/** Appending one record to the audit file: a write loop over short and failing system calls, then fsync, then, on
    trouble, a rollback. What the calls do is a script; the writer sees only their results. */
module AuditFile {
  newtype byte = x: int | 0 <= x < 256

  /** One call of `write`: the integer it returned, something that is not an integer, or an exception. `landed` is how
      much of the offered data reached the file when the result does not tell. */
  datatype WriteCall =
    | Count(n: int, landed: nat)
    | NotAnInteger(landed: nat)
    | Interrupted
    | WriteOsError(landed: nat)
    | WriteOther(landed: nat)

  datatype SyscallResult = Ok | OsError | Other

  datatype Script = Script(
    encodable: bool,
    opens: bool,
    writes: seq<WriteCall>,
    sync: SyscallResult,
    truncate: SyscallResult,
    syncAgain: SyscallResult,
    closes: bool)

  /** `Pending` is a writer still inside its loop when the script ends (or killed there). `Escaped` is an exception of
      a kind the writer does not handle. */
  datatype WriteStatus = Complete | Failed | Foreign | Pending

  datatype AppendResult = Appended | AppendFailed | IntegrityLost | Escaped | StillWriting

  function Min(a: nat, b: nat): nat { if a < b then a else b }

  /** A count the loop accepts; the kernel then has written exactly that much. */
  predicate GoodCount(call: WriteCall, remaining: nat) {
    call.Count? && 0 < call.n <= remaining
  }

  function Landed(call: WriteCall, remaining: nat): (k: nat)
    ensures k <= remaining
  {
    if GoodCount(call, remaining) then call.n
    else if call.Interrupted? then 0
    else Min(call.landed, remaining)
  }

  /** How many of `length` bytes reach the file, and how the loop ends. */
  function WriteLoop(length: nat, writes: seq<WriteCall>): (r: (nat, WriteStatus))
    decreases |writes|
  {
    if length == 0 then (0, Complete)
    else if writes == [] then (0, Pending)
    else
      var k := Landed(writes[0], length);
      if GoodCount(writes[0], length) || writes[0].Interrupted? then
        var (rest, status) := WriteLoop(length - k, writes[1..]);
        (k + rest, status)
      else (k, if writes[0].WriteOther? then Foreign else Failed)
  }

  datatype State = State(file: seq<byte>, compromised: bool)

  function Rollback(s: State, offset: nat, script: Script): (State, AppendResult) {
    if script.truncate.Other? then (s, Escaped)
    else if script.truncate.OsError? || offset > |s.file| then (s.(compromised := true), IntegrityLost)
    else
      var t := s.(file := s.file[..offset]);
      match script.syncAgain
      case Ok => (t, AppendFailed)
      case OsError => (t.(compromised := true), IntegrityLost)
      case Other => (t, Escaped)
  }

  function Append(s: State, data: seq<byte>, script: Script): (State, AppendResult) {
    if s.compromised then (s, IntegrityLost)
    else if !script.encodable || !script.opens then (s, AppendFailed)
    else
      var (k, status) := WriteLoop(|data|, script.writes);
      var written := s.(file := s.file + data[..Min(k, |data|)]);
      match status
      case Pending => (written, StillWriting)
      case Foreign => (written, Escaped)
      case Failed => Rollback(written, |s.file|, script)
      case Complete =>
        match script.sync
        case Ok => (written, if script.closes then Appended else AppendFailed)
        case OsError => Rollback(written, |s.file|, script)
        case Other => (written, Escaped)
  }

  // ----- the writer -----

  class AuditWriter {
    var file: seq<byte>
    var compromised: bool

    ghost function Abs(): State
      reads this
    {
      State(file, compromised)
    }

    method WriteAll(data: seq<byte>, writes: seq<WriteCall>) returns (status: WriteStatus)
      modifies this`file
      ensures WriteLoop(|data|, writes).0 <= |data|
      ensures status == WriteLoop(|data|, writes).1
      ensures file == old(file) + data[..WriteLoop(|data|, writes).0]
    {
      var offset := 0;
      var i := 0;
      while offset < |data|
        invariant 0 <= offset <= |data| && 0 <= i <= |writes|
        invariant file == old(file) + data[..offset]
        invariant WriteLoop(|data|, writes).0 == offset + WriteLoop(|data| - offset, writes[i..]).0
        invariant WriteLoop(|data|, writes).1 == WriteLoop(|data| - offset, writes[i..]).1
        decreases |writes| - i
      {
        if i == |writes| { return Pending; }
        var call := writes[i];
        var remaining := |data| - offset;
        var k := Landed(call, remaining);
        assert writes[i..][0] == call && writes[i..][1..] == writes[i + 1..];
        assert data[..offset] + data[offset..offset + k] == data[..offset + k];
        file := file + data[offset..offset + k];
        if GoodCount(call, remaining) || call.Interrupted? {
          offset := offset + k;
        } else if call.WriteOther? {
          return Foreign;
        } else {
          return Failed;
        }
        i := i + 1;
      }
      return Complete;
    }

    method RollBack(offset: nat, script: Script) returns (result: AppendResult)
      requires offset <= |file|
      modifies this
      ensures (Abs(), result) == Rollback(old(Abs()), offset, script)
    {
      if script.truncate.Other? { return Escaped; }
      if script.truncate.OsError? {
        compromised := true;
        return IntegrityLost;
      }
      file := file[..offset];
      if script.syncAgain.Other? { return Escaped; }
      if script.syncAgain.OsError? {
        compromised := true;
        return IntegrityLost;
      }
      return AppendFailed;
    }

    /** All of the record or none of it, or a writer that is compromised from then on; only an append that escapes, or
        is cut short, says nothing of the kind. */
    method AppendRecord(data: seq<byte>, script: Script) returns (result: AppendResult)
      modifies this
      ensures (Abs(), result) == Append(old(Abs()), data, script)
      ensures old(file) <= file && (result.IntegrityLost? <==> compromised)
      ensures result.Appended? ==> file == old(file) + data
      ensures result.Appended? <==> !old(compromised) && Outcome(|data|, script).Appended?
      ensures old(compromised) ==> file == old(file)
      ensures !result.Escaped? && !result.StillWriting? ==> Atomic(old(Abs()), data, Abs())
    {
      AppendIsAtomic(Abs(), data, script);
      if !compromised { OutcomeOfAppend(Abs(), data, script); }
      if compromised { return IntegrityLost; }
      if !script.encodable || !script.opens { return AppendFailed; }
      var offset := |file|;
      var status := WriteAll(data, script.writes);
      if status.Pending? { return StillWriting; }
      if status.Foreign? { return Escaped; }
      if status.Complete? && script.sync.Ok? { return if script.closes then Appended else AppendFailed; }
      if status.Complete? && script.sync.Other? { return Escaped; }
      result := RollBack(offset, script);
    }
  }

  // ----- what an append guarantees -----

  lemma {:induction false} WriteLoopBound(length: nat, writes: seq<WriteCall>)
    ensures WriteLoop(length, writes).0 <= length
    ensures WriteLoop(length, writes).1.Complete? ==> WriteLoop(length, writes).0 == length
    decreases |writes|
  {
    if length == 0 || writes == [] {
    } else {
      WriteLoopBound(length - Landed(writes[0], length), writes[1..]);
    }
  }

  /** All or nothing, or never again: nothing of the record, the whole record, or a writer that is compromised. */
  ghost predicate Atomic(before: State, data: seq<byte>, after: State) {
    after.file == before.file || after.file == before.file + data || after.compromised
  }

  /** For every script in which the append comes back with a result of its own, it is atomic; success means the record
      is there in full and the writer is sound; what was in the file before is never touched. */
  lemma AppendIsAtomic(s: State, data: seq<byte>, script: Script)
    ensures var (t, result) := Append(s, data, script);
      && s.file <= t.file
      && (s.compromised ==> t == s && result == IntegrityLost)
      && (result.Appended? ==> t.file == s.file + data && !t.compromised)
      && (result.IntegrityLost? <==> t.compromised)
      && (result.AppendFailed? ==> t.file == s.file || (t.file == s.file + data && !script.closes))
      && (!result.Escaped? && !result.StillWriting? ==> t.file == s.file || t.file == s.file + data || t.compromised)
  {
    WriteLoopBound(|data|, script.writes);
    var k := WriteLoop(|data|, script.writes).0;
    assert data[..|data|] == data;
    assert (s.file + data[..k])[..|s.file|] == s.file;
  }

  /** How much of the record an append leaves in the file. */
  function Left(length: nat, script: Script): nat {
    var (k, status) := WriteLoop(length, script.writes);
    if !script.encodable || !script.opens then 0
    else if (status.Failed? || (status.Complete? && script.sync.OsError?)) && script.truncate.Ok? then 0
    else k
  }

  lemma AppendLeaves(s: State, data: seq<byte>, script: Script)
    requires !s.compromised
    ensures Left(|data|, script) <= |data|
    ensures Append(s, data, script).0.file == s.file + data[..Left(|data|, script)]
  {
    WriteLoopBound(|data|, script.writes);
    PartOfRecord(s.file, data, WriteLoop(|data|, script.writes).0);
    PartOfRecord(s.file, data, 0);
    hide WriteLoop;
  }

  /** How a rollback ends, given that it finds the file it left. */
  function RolledBack(script: Script): AppendResult {
    match script.truncate
    case Other => Escaped
    case OsError => IntegrityLost
    case Ok => match script.syncAgain case Ok => AppendFailed case OsError => IntegrityLost case Other => Escaped
  }

  /** How an append of `length` bytes by a sound writer ends. */
  function Outcome(length: nat, script: Script): AppendResult {
    if !script.encodable || !script.opens then AppendFailed
    else
      match WriteLoop(length, script.writes).1
      case Pending => StillWriting
      case Foreign => Escaped
      case Failed => RolledBack(script)
      case Complete =>
        match script.sync
        case Ok => if script.closes then Appended else AppendFailed
        case OsError => RolledBack(script)
        case Other => Escaped
  }

  /** How many bytes a run of counted and interrupted writes puts into the file. */
  function Counted(writes: seq<WriteCall>): int {
    if writes == [] then 0
    else (if writes[0].Count? then writes[0].n else 0) + Counted(writes[1..])
  }

  /** The first `n` writes only make progress or are interrupted, and end with the last byte. */
  predicate Gets(length: nat, writes: seq<WriteCall>, n: nat) {
    && n <= |writes| && Counted(writes[..n]) == length
    && forall k :: 0 <= k < n ==> writes[k].Interrupted? || (writes[k].Count? && writes[k].n > 0)
  }

  lemma {:induction false} CountedIsPositive(writes: seq<WriteCall>)
    requires forall k :: 0 <= k < |writes| ==> writes[k].Interrupted? || (writes[k].Count? && writes[k].n > 0)
    ensures Counted(writes) >= 0
    decreases |writes|
  {
    if writes != [] { CountedIsPositive(writes[1..]); }
  }

  /** The write loop completes exactly when some of its calls, from the first on, write the record to its last byte with
      nothing worse than interruptions and short counts in between. */
  lemma {:induction false} CompletesIff(length: nat, writes: seq<WriteCall>)
    ensures WriteLoop(length, writes).1.Complete? <==> exists n: nat :: Gets(length, writes, n)
    decreases |writes|
  {
    if length == 0 {
      assert Gets(length, writes, 0);
    } else if writes == [] {
    } else {
      var w, rest := writes[0], writes[1..];
      var left := length - Landed(w, length);
      CompletesIff(left, rest);
      forall n: nat | n < |writes| ensures writes[..n + 1][0] == w && writes[..n + 1][1..] == rest[..n] {}
      if GoodCount(w, length) || w.Interrupted? {
        if n: nat :| Gets(left, rest, n) {
          assert Counted(writes[..n + 1]) == length;
          assert Gets(length, writes, n + 1);
        }
      }
      if n: nat :| Gets(length, writes, n) {
        assert n > 0 && Counted(writes[..n]) == (if w.Count? then w.n else 0) + Counted(rest[..n - 1]);
        CountedIsPositive(rest[..n - 1]);
        assert Gets(left, rest, n - 1);
      }
    }
  }

  /** An append succeeds exactly when nothing goes wrong that the writer cannot go on from. */
  lemma SucceedsIff(length: nat, script: Script)
    ensures Outcome(length, script).Appended? <==>
      && script.encodable && script.opens && (exists n: nat :: Gets(length, script.writes, n)) && script.sync.Ok? && script.closes
  {
    CompletesIff(length, script.writes);
    hide WriteLoop, Gets;
  }

  /** An append that leaves part of its record, and part only. */
  predicate Tears(length: nat, script: Script) {
    0 < Left(length, script) < length
  }

  lemma OutcomeOfAppend(s: State, data: seq<byte>, script: Script)
    requires !s.compromised
    ensures Append(s, data, script).1 == Outcome(|data|, script)
    ensures Outcome(|data|, script).Appended? ==> !Append(s, data, script).0.compromised && Left(|data|, script) == |data|
  {
    WriteLoopBound(|data|, script.writes);
    hide WriteLoop;
  }

  /** Exactly when an append tears its record: the loop stopped after some but not all bytes, and what it had written
      was not taken back, because nobody tried (the process died in the loop, or the exception was of an unhandled
      kind) or because the truncation failed. */
  lemma TearsIff(length: nat, script: Script)
    ensures var (k, status) := WriteLoop(length, script.writes);
      Tears(length, script) <==>
        && script.encodable && script.opens && 0 < k < length
        && (status.Pending? || status.Foreign? || (status.Failed? && !script.truncate.Ok?))
  {
    WriteLoopBound(length, script.writes);
    hide WriteLoop;
  }

  /** Two scripts that do: `k` bytes written, then an error and a truncation that fails too; or then nothing more, the
      process being killed. */
  lemma ShortWritesTear(length: nat, k: nat)
    requires 0 < k < length
    ensures Tears(length, Script(true, true, [Count(k, 0), WriteOsError(0)], Ok, OsError, Ok, true))
    ensures Outcome(length, Script(true, true, [Count(k, 0), WriteOsError(0)], Ok, OsError, Ok, true)).IntegrityLost?
    ensures Tears(length, Script(true, true, [Count(k, 0)], Ok, Ok, Ok, true))
  {
    assert WriteLoop(length - k, [WriteOsError(0)]) == (0, Failed) && WriteLoop(length - k, []) == (0, Pending);
    assert [Count(k, 0), WriteOsError(0)][1..] == [WriteOsError(0)];
    assert WriteLoop(length, [Count(k, 0), WriteOsError(0)]) == (k, Failed);
    assert [Count(k, 0)][1..] == [];
    assert WriteLoop(length, [Count(k, 0)]) == (k, Pending);
  }

  /** The one way to leave part of a record behind in a writer that goes on: an exception of an unhandled kind, out of
      the write loop after some but not all bytes, or out of the truncation that should have removed them. */
  lemma AtomicUnlessEscapedMidRecord(s: State, data: seq<byte>, script: Script)
    requires !s.compromised && !Append(s, data, script).1.StillWriting?
    ensures var (k, status) := WriteLoop(|data|, script.writes);
      Atomic(s, data, Append(s, data, script).0) <==>
      !(script.encodable && script.opens && 0 < k < |data| && (status.Foreign? || (status.Failed? && script.truncate.Other?)))
  {
    WriteLoopBound(|data|, script.writes);
    AppendLeaves(s, data, script);
    PartOfRecord(s.file, data, Left(|data|, script));
    hide WriteLoop;
  }

  lemma PartOfRecord(file: seq<byte>, data: seq<byte>, k: nat)
    requires k <= |data|
    ensures (file + data[..k])[..|file|] == file
    ensures file + data[..k] == file <==> k == 0
    ensures file + data[..k] == file + data <==> k == |data|
  {
    assert |file + data[..k]| == |file| + k;
    if k == |data| { assert data[..k] == data; }
  }

  // ----- many appends -----

  datatype Call = Call(data: seq<byte>, script: Script)

  function AppendAll(s: State, calls: seq<Call>): State {
    if calls == [] then s
    else
      var n := |calls| - 1;
      Append(AppendAll(s, calls[..n]), calls[n].data, calls[n].script).0
  }

  /** Every append so far came back with a result of its own. */
  predicate Settled(s: State, calls: seq<Call>) {
    calls == []
    || (var n := |calls| - 1;
        var result := Append(AppendAll(s, calls[..n]), calls[n].data, calls[n].script).1;
        Settled(s, calls[..n]) && !result.Escaped? && !result.StillWriting?)
  }

  /** What the appends leave behind, in order. */
  function Kept(calls: seq<Call>): seq<byte> {
    if calls == [] then []
    else
      var n := |calls| - 1;
      WriteLoopBound(|calls[n].data|, calls[n].script.writes);
      Kept(calls[..n]) + calls[n].data[..Left(|calls[n].data|, calls[n].script)]
  }

  /** A settled append that leaves the writer sound leaves all of its record or none of it. */
  lemma SettledLeavesAllOrNothing(s: State, data: seq<byte>, script: Script)
    requires var (t, result) := Append(s, data, script); !t.compromised && !result.Escaped? && !result.StillWriting?
    ensures !s.compromised
    ensures Left(|data|, script) == 0 || Left(|data|, script) == |data|
    ensures Append(s, data, script).1.Appended? ==> Left(|data|, script) == |data|
  {
    WriteLoopBound(|data|, script.writes);
    hide WriteLoop;
  }

  lemma {:induction false} EachLeavesAllOrNothing(s: State, calls: seq<Call>, i: nat)
    requires Settled(s, calls) && !AppendAll(s, calls).compromised && i < |calls|
    ensures Left(|calls[i].data|, calls[i].script) in {0, |calls[i].data|}
    ensures Append(AppendAll(s, calls[..i]), calls[i].data, calls[i].script).1.Appended? ==>
      Left(|calls[i].data|, calls[i].script) == |calls[i].data|
    decreases |calls|
  {
    hide Append, Left;
    var n := |calls| - 1;
    SettledLeavesAllOrNothing(AppendAll(s, calls[..n]), calls[n].data, calls[n].script);
    if i < n {
      assert calls[..n][i] == calls[i] && calls[..n][..i] == calls[..i];
      EachLeavesAllOrNothing(s, calls[..n], i);
    }
  }

  /** Over any number of appends that each come back with a result of their own, an uncompromised file is exactly the
      old file followed by what each append left, in order; by the previous lemma that is the whole record or nothing,
      and the whole record if the append was reported as done. */
  lemma {:induction false} FileHoldsWholeRecords(s: State, calls: seq<Call>)
    requires Settled(s, calls) && !AppendAll(s, calls).compromised
    ensures !s.compromised && AppendAll(s, calls).file == s.file + Kept(calls)
    decreases |calls|
  {
    if calls == [] {
    } else {
      hide Append, Left;
      var n := |calls| - 1;
      var t, last := AppendAll(s, calls[..n]), calls[n];
      SettledLeavesAllOrNothing(t, last.data, last.script);
      FileHoldsWholeRecords(s, calls[..n]);
      AppendLeaves(t, last.data, last.script);
      var added := last.data[..Left(|last.data|, last.script)];
      assert AppendAll(s, calls).file == t.file + added;
      assert Kept(calls) == Kept(calls[..n]) + added;
      ConcatIsAssociative(s.file, Kept(calls[..n]), added);
    }
  }

  lemma ConcatIsAssociative(a: seq<byte>, b: seq<byte>, c: seq<byte>)
    ensures (a + b) + c == a + (b + c)
  {
  }
}
