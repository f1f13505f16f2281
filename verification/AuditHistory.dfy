/** The audit validator reads the file once. Here is what it accepts, said without reference to how it scans. */
module AuditHistory {
  import opened SafetyTypes
  import opened AuditRecords

  predicate Terminal(s: SafetyState) {
    s == STOPPED || s == ESTOPPED
  }

  // ----- the declarative meaning -----

  /** One controller's records: a single id, starting at NEW, each record starting where the previous one ended. */
  ghost predicate IsSession(s: seq<Record>) {
    && s != []
    && (forall i :: 0 <= i < |s| ==> s[i].session == s[0].session)
    && s[0].item.before == NEW
    && (forall i :: 0 < i < |s| ==> s[i].item.before == s[i - 1].item.after)
  }

  function Last(s: seq<Record>): SafetyState
    requires s != []
  {
    s[|s| - 1].item.after
  }

  function Concat(sessions: seq<seq<Record>>): seq<Record> {
    if sessions == [] then [] else Concat(sessions[..|sessions| - 1]) + sessions[|sessions| - 1]
  }

  /** Sessions with distinct ids, all but the last ending in a terminal state. */
  ghost predicate IsHistory(sessions: seq<seq<Record>>) {
    && (forall i :: 0 <= i < |sessions| ==> IsSession(sessions[i]))
    && (forall i, j :: 0 <= i < j < |sessions| ==> sessions[i][0].session != sessions[j][0].session)
    && (forall i :: 0 <= i < |sessions| - 1 ==> Terminal(Last(sessions[i])))
  }

  ghost predicate Acceptable(records: seq<Record>, requireTerminal: bool) {
    && (forall r :: r in records ==> ValidRecord(r))
    && (exists sessions :: IsHistory(sessions) && Concat(sessions) == records)
    && (requireTerminal && records != [] ==> Terminal(Last(records)))
  }

  // ----- the scan -----

  datatype Scan = Scan(session: Option<string>, previous: Option<SafetyState>, completed: set<string>)

  const FRESH: Scan := Scan(None, None, {})

  function Read(s: Scan, r: Record): Option<Scan> {
    if !ValidRecord(r) then None
    else if s.session != Some(r.session) then
      if r.session in s.completed then None
      else if s.session.Some? && !(s.previous.Some? && Terminal(s.previous.value)) then None
      else if r.item.before != NEW then None
      else Some(Scan(Some(r.session), Some(r.item.after), if s.session.Some? then s.completed + {s.session.value} else s.completed))
    else if s.previous.None? && r.item.before != NEW then None
    else if s.previous.Some? && r.item.before != s.previous.value then None
    else Some(s.(previous := Some(r.item.after)))
  }

  function ReadAll(records: seq<Record>): Option<Scan> {
    if records == [] then Some(FRESH)
    else
      var before := ReadAll(records[..|records| - 1]);
      if before.None? then None else Read(before.value, records[|records| - 1])
  }

  function Accepts(records: seq<Record>, requireTerminal: bool): bool {
    var scan := ReadAll(records);
    scan.Some? && !(requireTerminal && scan.value.previous.Some? && !Terminal(scan.value.previous.value))
  }

  /** The validator's loop. */
  method ValidateHistory(records: seq<Record>, requireTerminal: bool) returns (ok: bool)
    ensures ok == Accepts(records, requireTerminal)
    ensures ok <==> Acceptable(records, requireTerminal)
  {
    AcceptsIffAcceptable(records, requireTerminal);
    var previousAfter: Option<SafetyState> := None;
    var currentSession: Option<string> := None;
    var completedSessions: set<string> := {};
    for i := 0 to |records|
      invariant ReadAll(records[..i]) == Some(Scan(currentSession, previousAfter, completedSessions))
    {
      var record := records[i];
      assert records[..i + 1][..i] == records[..i];
      if !ValidRecord(record) {
        RejectionIsFinal(records, i + 1);
        return false;
      }
      if currentSession != Some(record.session) {
        if record.session in completedSessions {
          RejectionIsFinal(records, i + 1);
          return false;
        }
        if currentSession.Some? {
          if !(previousAfter.Some? && Terminal(previousAfter.value)) {
            RejectionIsFinal(records, i + 1);
            return false;
          }
          completedSessions := completedSessions + {currentSession.value};
        }
        currentSession := Some(record.session);
        previousAfter := None;
      }
      if previousAfter.None? && record.item.before != NEW {
        RejectionIsFinal(records, i + 1);
        return false;
      }
      if previousAfter.Some? && record.item.before != previousAfter.value {
        RejectionIsFinal(records, i + 1);
        return false;
      }
      previousAfter := Some(record.item.after);
    }
    assert records[..|records|] == records;
    ok := !(requireTerminal && previousAfter.Some? && !Terminal(previousAfter.value));
  }

  lemma {:induction false} RejectionIsFinal(records: seq<Record>, n: nat)
    requires n <= |records| && ReadAll(records[..n]).None?
    ensures ReadAll(records).None?
    decreases |records|
  {
    if n == |records| {
      assert records[..n] == records;
    } else {
      assert records[..|records| - 1][..n] == records[..n];
      RejectionIsFinal(records[..|records| - 1], n);
    }
  }

  // ----- the scan means what it should -----

  function Ids(sessions: seq<seq<Record>>): set<string> {
    set i | 0 <= i < |sessions| && sessions[i] != [] :: sessions[i][0].session
  }

  /** The scan state reached after reading the records of `sessions`. */
  ghost predicate Describes(scan: Scan, sessions: seq<seq<Record>>) {
    && IsHistory(sessions)
    && (if sessions == [] then scan == FRESH
        else
          var n := |sessions| - 1;
          scan == Scan(Some(sessions[n][0].session), Some(Last(sessions[n])), Ids(sessions[..n])))
  }

  function Front(sessions: seq<seq<Record>>): seq<seq<Record>>
    requires sessions != []
  {
    sessions[..|sessions| - 1]
  }

  /** `sessions` with one more record: in the last session if it has that id, in a new one otherwise. */
  function Extended(sessions: seq<seq<Record>>, r: Record): seq<seq<Record>> {
    if sessions != [] && sessions[|sessions| - 1] != [] && sessions[|sessions| - 1][0].session == r.session
    then Front(sessions) + [sessions[|sessions| - 1] + [r]]
    else sessions + [[r]]
  }

  lemma ConcatExtended(sessions: seq<seq<Record>>, r: Record)
    ensures Concat(Extended(sessions, r)) == Concat(sessions) + [r]
  {
    var x := Extended(sessions, r);
    assert Front(x) == (if |x| == |sessions| then Front(sessions) else sessions);
    assert Concat(x) == Concat(Front(x)) + x[|x| - 1];
  }

  lemma IdsFront(sessions: seq<seq<Record>>)
    requires sessions != [] && forall i :: 0 <= i < |sessions| ==> sessions[i] != []
    ensures Ids(sessions) == Ids(Front(sessions)) + {sessions[|sessions| - 1][0].session}
  {
    var n := |sessions| - 1;
    forall id | id in Ids(sessions) ensures id in Ids(Front(sessions)) + {sessions[n][0].session} {
      var i :| 0 <= i < |sessions| && sessions[i] != [] && sessions[i][0].session == id;
      if i < n { assert Front(sessions)[i] == sessions[i]; }
    }
    forall id | id in Ids(Front(sessions)) ensures id in Ids(sessions) {
      var i :| 0 <= i < n && Front(sessions)[i] != [] && Front(sessions)[i][0].session == id;
      assert sessions[i] == Front(sessions)[i];
    }
  }

  /** Reading one record succeeds exactly when the record is valid and extends the history to a history. */
  lemma ReadExtends(scan: Scan, sessions: seq<seq<Record>>, r: Record)
    requires Describes(scan, sessions)
    ensures Read(scan, r).Some? <==> ValidRecord(r) && IsHistory(Extended(sessions, r))
    ensures Read(scan, r).Some? ==> Describes(Read(scan, r).value, Extended(sessions, r))
  {
    hide Describes, IsHistory, Extended, Read, ValidRecord;
    if sessions == [] {
      FirstSession(scan, r);
    } else {
      DescribedIsHistory(scan, sessions);
      if sessions[|sessions| - 1][0].session == r.session {
        SameSession(scan, sessions, r);
      } else {
        assert OpensSession(scan, sessions, r);
        NewSession(scan, sessions, r);
      }
    }
  }

  lemma DescribedIsHistory(scan: Scan, sessions: seq<seq<Record>>)
    requires Describes(scan, sessions)
    ensures IsHistory(sessions) && forall i :: 0 <= i < |sessions| ==> sessions[i] != []
  {
  }

  lemma FirstSession(scan: Scan, r: Record)
    requires Describes(scan, [])
    ensures Read(scan, r).Some? <==> ValidRecord(r) && IsHistory(Extended([], r))
    ensures Read(scan, r).Some? ==> Describes(Read(scan, r).value, Extended([], r))
  {
    assert Extended([], r) == [[r]] && [[r]][0] == [r];
    assert Ids([[r]][..0]) == {};
  }

  lemma SameSession(scan: Scan, sessions: seq<seq<Record>>, r: Record)
    requires Describes(scan, sessions) && sessions != [] && sessions[|sessions| - 1][0].session == r.session
    ensures Read(scan, r).Some? <==> ValidRecord(r) && IsHistory(Extended(sessions, r))
    ensures Read(scan, r).Some? ==> Describes(Read(scan, r).value, Extended(sessions, r))
  {
    var n := |sessions| - 1;
    var last, x := sessions[n], Extended(sessions, r);
    assert x[n] == last + [r] && x[..n] == sessions[..n];
    assert forall i :: 0 <= i < n ==> x[i] == sessions[i];
    assert x[n][|last| - 1] == last[|last| - 1] && x[n][|last|] == r;
    if r.item.before == Last(last) {
      assert IsSession(x[n]);
    }
  }

  ghost predicate OpensSession(scan: Scan, sessions: seq<seq<Record>>, r: Record) {
    Describes(scan, sessions) && sessions != [] && sessions[|sessions| - 1][0].session != r.session
  }

  lemma NewSession(scan: Scan, sessions: seq<seq<Record>>, r: Record)
    requires OpensSession(scan, sessions, r)
    ensures Read(scan, r).Some? <==> ValidRecord(r) && IsHistory(Extended(sessions, r))
    ensures Read(scan, r).Some? ==> Describes(Read(scan, r).value, Extended(sessions, r))
  {
    hide IsHistory, Extended;
    if Read(scan, r).Some? { ReadOpensHistory(scan, sessions, r); }
    if ValidRecord(r) && IsHistory(Extended(sessions, r)) { OpenedHistoryIsRead(scan, sessions, r); }
  }

  lemma SingleIsSession(r: Record)
    ensures IsSession([r]) <==> r.item.before == NEW
  {
  }

  lemma ReadOpensHistory(scan: Scan, sessions: seq<seq<Record>>, r: Record)
    requires OpensSession(scan, sessions, r) && Read(scan, r).Some?
    ensures IsHistory(Extended(sessions, r)) && Describes(Read(scan, r).value, Extended(sessions, r))
  {
    var n := |sessions| - 1;
    var x := Extended(sessions, r);
    assert x == sessions + [[r]];
    IdsFront(sessions);
    SingleIsSession(r);
    hide IsSession;
    assert x[n + 1] == [r] && x[..n + 1] == sessions;
    forall i | 0 <= i <= n ensures x[i] == sessions[i] && x[i][0].session != r.session {
      assert sessions[i] != [] && sessions[i][0].session in Ids(sessions);
    }
    hide Ids;
    assert IsHistory(x);
  }

  lemma OpenedHistoryIsRead(scan: Scan, sessions: seq<seq<Record>>, r: Record)
    requires OpensSession(scan, sessions, r) && ValidRecord(r) && IsHistory(Extended(sessions, r))
    ensures Read(scan, r).Some?
  {
    var n := |sessions| - 1;
    var x := Extended(sessions, r);
    assert x == sessions + [[r]];
    SingleIsSession(r);
    hide IsSession;
    assert x[n + 1] == [r] && x[n] == sessions[n];
    assert IsSession(x[n + 1]) && Terminal(Last(x[n]));
    forall id | id in Ids(sessions[..n]) ensures id != r.session {
      var i :| 0 <= i < n && sessions[..n][i] != [] && sessions[..n][i][0].session == id;
      assert x[i] == sessions[i] && x[i][0].session != x[n + 1][0].session;
    }
  }

  lemma {:induction false} ReadRecordsAreValid(records: seq<Record>)
    requires ReadAll(records).Some?
    ensures forall r :: r in records ==> ValidRecord(r)
    decreases |records|
  {
    if records == [] {
    } else {
      var n := |records| - 1;
      ReadRecordsAreValid(records[..n]);
      assert records == records[..n] + [records[n]];
    }
  }

  /** Every prefix the scan gets through is a history the scan state describes. */
  lemma {:induction false} ReadAllDescribes(records: seq<Record>) returns (sessions: seq<seq<Record>>)
    requires ReadAll(records).Some?
    ensures Concat(sessions) == records && Describes(ReadAll(records).value, sessions)
    decreases |records|
  {
    if records == [] {
      sessions := [];
    } else {
      hide Describes, IsHistory, Extended, Read, Concat;
      var n := |records| - 1;
      var before := ReadAllDescribes(records[..n]);
      ReadExtends(ReadAll(records[..n]).value, before, records[n]);
      ConcatExtended(before, records[n]);
      sessions := Extended(before, records[n]);
      assert records == records[..n] + [records[n]];
    }
  }

  /** `sessions` without its very last record. */
  function Shortened(sessions: seq<seq<Record>>): seq<seq<Record>>
    requires sessions != [] && sessions[|sessions| - 1] != []
  {
    var last := sessions[|sessions| - 1];
    if |last| == 1 then Front(sessions) else Front(sessions) + [last[..|last| - 1]]
  }

  lemma ShortenedIsHistory(sessions: seq<seq<Record>>)
    requires IsHistory(sessions) && sessions != []
    ensures IsHistory(Shortened(sessions))
  {
    var n := |sessions| - 1;
    var last, x := sessions[n], Shortened(sessions);
    assert forall i :: 0 <= i < n ==> x[i] == sessions[i];
    if |last| > 1 {
      assert x[n] == last[..|last| - 1];
      assert IsSession(x[n]);
    }
  }

  lemma ShortenedExtends(sessions: seq<seq<Record>>)
    requires IsHistory(sessions) && sessions != []
    ensures var last := sessions[|sessions| - 1]; Extended(Shortened(sessions), last[|last| - 1]) == sessions
  {
    var n := |sessions| - 1;
    var last := sessions[n];
    assert IsSession(last);
    if n > 0 { assert IsSession(sessions[n - 1]) && sessions[n - 1][0].session != last[0].session; }
    hide IsHistory, IsSession;
    assert sessions == Front(sessions) + [last];
    if |last| == 1 {
      assert last == [last[0]];
    } else {
      var x := Shortened(sessions);
      assert x[n] == last[..|last| - 1] && Front(x) == Front(sessions);
      assert last == last[..|last| - 1] + [last[|last| - 1]];
      assert x[n][0].session == last[|last| - 1].session;
    }
  }

  /** Every history of valid records gets through the scan. */
  lemma {:induction false} HistoryIsRead(records: seq<Record>, sessions: seq<seq<Record>>)
    requires IsHistory(sessions) && Concat(sessions) == records
    requires forall r :: r in records ==> ValidRecord(r)
    ensures ReadAll(records).Some? && Describes(ReadAll(records).value, sessions)
    decreases |records|
  {
    if sessions == [] {
    } else {
      hide Describes, IsHistory, Extended, Read, Shortened;
      var before := ShortenedHistory(sessions);
      var m := |records| - 1;
      assert records[..m] == Concat(before);
      HistoryIsRead(records[..m], before);
      ReadExtends(ReadAll(records[..m]).value, before, records[m]);
      assert records[m] in records;
    }
  }

  lemma ShortenedHistory(sessions: seq<seq<Record>>) returns (before: seq<seq<Record>>)
    requires IsHistory(sessions) && sessions != []
    ensures var all := Concat(sessions);
      all != [] && IsHistory(before) && Extended(before, all[|all| - 1]) == sessions && all == Concat(before) + [all[|all| - 1]]
  {
    var last := sessions[|sessions| - 1];
    before := Shortened(sessions);
    ShortenedIsHistory(sessions);
    ShortenedExtends(sessions);
    ConcatExtended(before, last[|last| - 1]);
  }

  lemma LastOfConcat(sessions: seq<seq<Record>>)
    requires IsHistory(sessions) && sessions != []
    ensures Concat(sessions) != [] && Last(Concat(sessions)) == Last(sessions[|sessions| - 1])
  {
  }

  /** The one-pass validator accepts exactly the concatenations of sessions described above. */
  lemma AcceptsIffAcceptable(records: seq<Record>, requireTerminal: bool)
    ensures Accepts(records, requireTerminal) <==> Acceptable(records, requireTerminal)
  {
    if ReadAll(records).Some? {
      ReadRecordsAreValid(records);
      var sessions := ReadAllDescribes(records);
      if sessions != [] { LastOfConcat(sessions); }
    }
    if Acceptable(records, requireTerminal) {
      var sessions :| IsHistory(sessions) && Concat(sessions) == records;
      HistoryIsRead(records, sessions);
      if sessions != [] { LastOfConcat(sessions); }
    }
  }
}
