/** What the controllers leave in the audit file over the life of a runtime directory, byte for byte, and when the
    validator accepts it. */
module LogAgreement {
  import opened SafetyTypes
  import opened AuditRecords
  import opened AuditHistory
  import opened AuditText
  import D = AuditDrainSpec
  import DP = AuditDrainProofs
  import F = AuditFile
  import G = GatewaySpec

  /** One controller: its fresh session id, everything that happened while it lived, and the text of the k-th record its
      writer worked on. */
  datatype Era = Era(session: string, mode: G.Mode, steps: seq<D.Step>, texts: nat -> Text)

  function Final(e: Era): D.State {
    D.Run(D.Init(e.mode), e.steps)
  }

  /** What the writer worked on. */
  function Attempts(e: Era): seq<D.Attempt> {
    Final(e).attempts
  }

  function Stamped(items: seq<Item>, session: string): seq<Record> {
    seq(|items|, i requires 0 <= i < |items| => Record(items[i], session, true))
  }

  /** The records it put into the file whole. */
  function Written(e: Era): seq<Record> {
    Stamped(Final(e).written, e.session)
  }

  /** A record the writer could encode is on a line that reads back, of the length the attempt was made with. */
  ghost predicate Encoded(decode: Decode, e: Era) {
    forall k :: 0 <= k < |Attempts(e)| && Attempts(e)[k].script.encodable ==>
      Encodes(decode, e.texts(k), Record(Attempts(e)[k].item, e.session, true)) && Attempts(e)[k].length == |e.texts(k)| + 1
  }

  /** The writer's first `n` appends. */
  function Calls(e: Era, n: nat): (calls: seq<F.Call>)
    requires n <= |Attempts(e)|
    ensures |calls| == n
  {
    if n == 0 then [] else Calls(e, n - 1) + [F.Call(e.texts(n - 1) + [NEWLINE], Attempts(e)[n - 1].script)]
  }

  /** The file after an era, by what the writer does to it. */
  function Appended(file: Text, e: Era): Text {
    F.AppendAll(F.State(file, false), Calls(e, |Attempts(e)|)).file
  }

  function File(eras: seq<Era>): Text {
    if eras == [] then [] else Appended(File(eras[..|eras| - 1]), eras[|eras| - 1])
  }

  function Records(eras: seq<Era>): seq<Record> {
    if eras == [] then [] else Records(eras[..|eras| - 1]) + Written(eras[|eras| - 1])
  }

  /** Some append of this era left part of its record, and part only. */
  predicate TornIn(e: Era) {
    exists k :: 0 <= k < |Attempts(e)| && D.Torn(Attempts(e)[k])
  }

  /** One controller at a time, each with a session id of its own; one that finds a file it cannot accept as finished is
      quarantined and never gets to its writer. */
  ghost predicate Lived(decode: Decode, eras: seq<Era>) {
    && (forall i, j :: 0 <= i < j < |eras| ==> eras[i].session != eras[j].session)
    && (forall i :: 0 <= i < |eras| ==> Encoded(decode, eras[i]))
    && (forall i :: 0 <= i < |eras| && Attempts(eras[i]) != [] ==> AcceptsText(decode, File(eras[..i]), true))
  }

  // ----- the records -----

  /** What one controller writes is one session of valid records. */
  lemma EraIsSession(e: Era)
    ensures Written(e) != [] ==> IsSession(Written(e)) && Written(e)[0].session == e.session
    ensures forall r :: r in Written(e) ==> ValidRecord(r)
  {
    DP.InitInv(e.mode);
    DP.RunKeepsInv(D.Init(e.mode), e.steps);
    DP.RunKeepsMode(D.Init(e.mode), e.steps);
    var s := Final(e);
    StampedIsSession(s.shared.log, s.written, e.mode, e.session);
  }

  lemma StampedIsSession(log: seq<G.Transition>, items: seq<Item>, mode: G.Mode, session: string)
    requires |items| <= |log| && G.Chained(log)
    requires forall i :: 0 <= i < |log| ==> G.LegalMove(log[i], mode)
    requires forall i :: 0 <= i < |items| ==> items[i] == ItemFor(log[i])
    ensures items != [] ==> IsSession(Stamped(items, session))
    ensures forall r :: r in Stamped(items, session) ==> ValidRecord(r) && r.session == session
  {
    forall i | 0 <= i < |items|
      ensures items[i].before == log[i].before && items[i].after == log[i].after && TransitionInTables(items[i]) && DataFits(items[i])
    {
      TransitionsAreAuditable(log[i], mode);
    }
  }

  /** Session ids are fresh, and a controller that wrote found the records of the earlier ones finished. */
  ghost predicate HandedOver(eras: seq<Era>) {
    && (forall i, j :: 0 <= i < j < |eras| ==> eras[i].session != eras[j].session)
    && (forall i :: 0 <= i < |eras| && Written(eras[i]) != [] ==> Accepts(Records(eras[..i]), true))
  }

  /** The records are a history of sessions, each named after an era. */
  ghost predicate Comprises(eras: seq<Era>, sessions: seq<seq<Record>>) {
    && IsHistory(sessions) && Concat(sessions) == Records(eras)
    && (forall k :: 0 <= k < |sessions| ==> exists i :: 0 <= i < |eras| && sessions[k][0].session == eras[i].session)
  }

  lemma NextEra(eras: seq<Era>, sessions: seq<seq<Record>>) returns (longer: seq<seq<Record>>)
    requires eras != [] && HandedOver(eras) && Comprises(eras[..|eras| - 1], sessions)
    ensures Comprises(eras, longer)
  {
    var n := |eras| - 1;
    EraIsSession(eras[n]);
    var added := Written(eras[n]);
    if added == [] {
      longer := sessions;
      assert Records(eras) == Records(eras[..n]);
    } else {
      longer := sessions + [added];
      assert longer[..|sessions|] == sessions && longer[|sessions|] == added;
      assert Concat(longer) == Records(eras);
      if sessions != [] {
        LastOfConcat(sessions);
        AcceptsIffAcceptable(Records(eras[..n]), true);
      }
      assert IsHistory(longer) by { AppendedIsHistory(sessions, added, eras); }
    }
    forall k | 0 <= k < |longer| ensures exists i :: 0 <= i < |eras| && longer[k][0].session == eras[i].session {
      if k < |sessions| {
        var i :| 0 <= i < n && sessions[k][0].session == eras[..n][i].session;
        assert eras[..n][i] == eras[i] && longer[k] == sessions[k];
      } else {
        assert longer[k][0].session == eras[n].session;
      }
    }
  }

  lemma AppendedIsHistory(sessions: seq<seq<Record>>, added: seq<Record>, eras: seq<Era>)
    requires eras != [] && HandedOver(eras) && Comprises(eras[..|eras| - 1], sessions)
    requires IsSession(added) && added[0].session == eras[|eras| - 1].session
    requires sessions != [] ==> Terminal(Last(sessions[|sessions| - 1]))
    ensures IsHistory(sessions + [added])
  {
    var n := |eras| - 1;
    forall k | 0 <= k < |sessions| ensures sessions[k][0].session != added[0].session {
      var i :| 0 <= i < n && sessions[k][0].session == eras[..n][i].session;
      assert eras[i].session != eras[n].session;
    }
    hide HandedOver;
    HistoryGrows(sessions, added);
  }

  lemma HistoryGrows(sessions: seq<seq<Record>>, added: seq<Record>)
    requires IsHistory(sessions) && IsSession(added)
    requires sessions != [] ==> Terminal(Last(sessions[|sessions| - 1]))
    requires forall k :: 0 <= k < |sessions| ==> sessions[k][0].session != added[0].session
    ensures IsHistory(sessions + [added])
  {
    var longer := sessions + [added];
    assert forall k :: 0 <= k < |sessions| ==> longer[k] == sessions[k] && sessions[k] != [];
    hide IsSession;
    assert longer[|sessions|] == added;
  }

  lemma HandedOverBefore(eras: seq<Era>)
    requires eras != [] && HandedOver(eras)
    ensures HandedOver(eras[..|eras| - 1])
  {
    var shorter := eras[..|eras| - 1];
    forall i | 0 <= i < |shorter| && Written(shorter[i]) != [] ensures Accepts(Records(shorter[..i]), true) {
      assert shorter[i] == eras[i] && shorter[..i] == eras[..i];
    }
  }

  lemma {:induction false} RecordsCompriseSessions(eras: seq<Era>) returns (sessions: seq<seq<Record>>)
    requires HandedOver(eras)
    ensures Comprises(eras, sessions)
    ensures forall r :: r in Records(eras) ==> ValidRecord(r)
    decreases |eras|
  {
    if eras == [] {
      sessions := [];
    } else {
      HandedOverBefore(eras);
      hide HandedOver, Comprises, Written;
      var before := RecordsCompriseSessions(eras[..|eras| - 1]);
      EraIsSession(eras[|eras| - 1]);
      sessions := NextEra(eras, before);
    }
  }

  /** Whatever was handed over in order is a log the validator accepts, record by record. */
  lemma RecordsAreAccepted(eras: seq<Era>)
    requires HandedOver(eras)
    ensures Accepts(Records(eras), false)
    ensures Accepts(Records(eras), true) <==> Records(eras) == [] || Terminal(Last(Records(eras)))
  {
    var sessions := RecordsCompriseSessions(eras);
    AcceptsIffAcceptable(Records(eras), false);
    AcceptsIffAcceptable(Records(eras), true);
  }

  // ----- the bytes of one era -----

  /** The texts of the first `n` records. */
  function Texts(e: Era, n: nat): (texts: seq<Text>)
    ensures |texts| == n && forall k :: 0 <= k < n ==> texts[k] == e.texts(k)
  {
    if n == 0 then [] else Texts(e, n - 1) + [e.texts(n - 1)]
  }

  /** What the last append of the era left in the file, if it was not the whole record. */
  function Part(e: Era): Text {
    var n := |Final(e).written|;
    if n < |Attempts(e)| then
      var line, a := e.texts(n) + [NEWLINE], Attempts(e)[n];
      line[..F.Min(F.Left(a.length, a.script), |line|)]
    else []
  }

  lemma EraFacts(e: Era)
    ensures var s := Final(e);
      && |s.written| <= |s.attempts| <= |s.written| + 1
      && (forall k :: 0 <= k < |s.attempts| - 1 ==> D.Done(s.attempts[k]))
      && (forall k :: 0 <= k < |s.attempts| ==> s.attempts[k].length > 0)
      && (forall k :: 0 <= k < |s.written| ==> s.written[k] == s.attempts[k].item && D.Whole(s.attempts[k]))
      && (|s.written| < |s.attempts| ==> !D.Whole(s.attempts[|s.written|]))
  {
    DP.InitInv(e.mode);
    DP.RunKeepsInv(D.Init(e.mode), e.steps);
    var s := Final(e);
    forall k | 0 <= k < s.shared.next ensures D.Whole(s.attempts[k]) { DP.DoneIsWhole(s.attempts[k]); }
    hide D.Run, D.Whole, D.Done, D.EventsHold, D.LogHolds, D.OwnerHolds, ItemFor;
  }

  /** A sound writer reports as appended exactly what it has put there whole, and goes on being sound. */
  lemma DoneAppends(decode: Decode, file: Text, e: Era, k: nat)
    requires Encoded(decode, e) && k < |Attempts(e)| && D.Done(Attempts(e)[k])
    ensures F.Append(F.State(file, false), e.texts(k) + [NEWLINE], Attempts(e)[k].script).0
      == F.State(file + e.texts(k) + [NEWLINE], false)
  {
    var a, line := Attempts(e)[k], e.texts(k) + [NEWLINE];
    var s := F.State(file, false);
    F.OutcomeOfAppend(s, line, a.script);
    F.AppendLeaves(s, line, a.script);
    assert line[..|line|] == line && file + line == file + e.texts(k) + [NEWLINE];
    hide F.Append, F.Left, Attempts;
  }

  lemma {:induction false} SoundSoFar(decode: Decode, file: Text, e: Era, n: nat)
    requires Encoded(decode, e) && n <= |Attempts(e)| && forall k :: 0 <= k < n ==> D.Done(Attempts(e)[k])
    ensures F.AppendAll(F.State(file, false), Calls(e, n)) == F.State(file + Joined(Texts(e, n)), false)
  {
    hide F.Append, Attempts, Encoded, D.Done;
    if n == 0 {
      assert file + Joined([]) == file;
    } else {
      var texts := Texts(e, n - 1);
      SoundSoFar(decode, file, e, n - 1);
      assert Calls(e, n)[..n - 1] == Calls(e, n - 1);
      DoneAppends(decode, file + Joined(texts), e, n - 1);
      assert Texts(e, n)[..|texts|] == texts;
      assert (file + Joined(texts)) + e.texts(n - 1) + [NEWLINE] == file + (Joined(texts) + e.texts(n - 1) + [NEWLINE]);
    }
  }

  /** The writer decides by the encoded text what the attempt says by its length. */
  lemma SameLeft(decode: Decode, e: Era, k: nat)
    requires Encoded(decode, e) && k < |Attempts(e)|
    ensures var a := Attempts(e)[k];
      && F.Left(|e.texts(k)| + 1, a.script) == F.Left(a.length, a.script) <= |e.texts(k)| + 1
      && (0 < F.Left(a.length, a.script) ==> a.script.encodable && a.length == |e.texts(k)| + 1)
  {
    F.WriteLoopBound(|e.texts(k)| + 1, Attempts(e)[k].script.writes);
    hide F.WriteLoop, Encodes, Attempts;
  }

  /** An era appends its whole records, and then possibly part of one. */
  lemma EraAppends(decode: Decode, file: Text, e: Era)
    requires Encoded(decode, e)
    ensures Appended(file, e) == file + Joined(Texts(e, |Final(e).written|)) + Part(e)
  {
    var m := |Attempts(e)|;
    if m == 0 {
      EraFacts(e);
      hide Final;
      assert Joined([]) == [] && file + [] + [] == file;
    } else {
      LastAppend(decode, file, e);
      LastLine(decode, e);
      LastWhole(file, e, m);
      hide Appended, Attempts, Final, Encoded, Part, Texts, Joined;
    }
  }

  /** What the last append leaves. */
  function LastLeft(e: Era): Text
    requires Attempts(e) != []
  {
    var m := |Attempts(e)| - 1;
    var line, a := e.texts(m) + [NEWLINE], Attempts(e)[m];
    line[..F.Min(F.Left(a.length, a.script), |line|)]
  }

  lemma LastAppend(decode: Decode, file: Text, e: Era)
    requires Encoded(decode, e) && Attempts(e) != []
    ensures Appended(file, e) == file + Joined(Texts(e, |Attempts(e)| - 1)) + LastLeft(e)
  {
    var m := |Attempts(e)|;
    EraFacts(e);
    SoundSoFar(decode, file, e, m - 1);
    SameLeft(decode, e, m - 1);
    hide Final, Encoded, F.Append, F.Left, Attempts, Joined, Texts;
    F.AppendLeaves(F.State(file + Joined(Texts(e, m - 1)), false), e.texts(m - 1) + [NEWLINE], Attempts(e)[m - 1].script);
    assert Calls(e, m)[..m - 1] == Calls(e, m - 1);
  }

  /** That is the last whole line, or the part the era ends with. */
  lemma LastLine(decode: Decode, e: Era)
    requires Encoded(decode, e) && Attempts(e) != []
    ensures var m, n := |Attempts(e)|, |Final(e).written|;
      if n == m then LastLeft(e) == e.texts(m - 1) + [NEWLINE] && Part(e) == [] else n == m - 1 && LastLeft(e) == Part(e)
  {
    EraFacts(e);
    var line := e.texts(|Attempts(e)| - 1) + [NEWLINE];
    SameLeft(decode, e, |Attempts(e)| - 1);
    assert line[..|line|] == line;
    hide Final, F.Left, Encoded;
  }

  lemma LastWhole(file: Text, e: Era, m: nat)
    requires m > 0
    ensures file + Joined(Texts(e, m - 1)) + (e.texts(m - 1) + [NEWLINE]) == file + Joined(Texts(e, m)) + []
  {
    assert Texts(e, m)[..m - 1] == Texts(e, m - 1);
    assert Joined(Texts(e, m)) == Joined(Texts(e, m - 1)) + e.texts(m - 1) + [NEWLINE];
  }

  predicate PartOf(part: Text, text: Text, k: nat) {
    Unbroken(text) && 0 < k <= |text| && part == (text + [NEWLINE])[..k]
  }

  /** Some of a line, but not its end. */
  ghost predicate IsPart(part: Text) {
    exists text, k :: PartOf(part, text, k)
  }

  lemma PartIffTorn(decode: Decode, e: Era)
    requires Encoded(decode, e)
    ensures Part(e) == [] <==> !TornIn(e)
    ensures Part(e) != [] ==> IsPart(Part(e))
    ensures Attempts(e) == [] ==> Part(e) == [] && Final(e).written == []
  {
    EraFacts(e);
    var n := |Final(e).written|;
    forall k | 0 <= k < n ensures !D.Torn(Attempts(e)[k]) {}
    if n < |Attempts(e)| {
      SameLeft(decode, e, n);
      var a := Attempts(e)[n];
      var left := F.Left(a.length, a.script);
      if left > 0 { assert PartOf(Part(e), e.texts(n), left); }
    }
  }

  /** The texts of whole records read back as those records. */
  lemma TextsReadBack(decode: Decode, e: Era)
    requires Encoded(decode, e)
    ensures EncodesAll(decode, Texts(e, |Final(e).written|), Written(e))
  {
    EraFacts(e);
    forall k | 0 <= k < |Final(e).written| ensures Encodes(decode, e.texts(k), Written(e)[k]) {
      SameLeft(decode, e, k);
    }
  }

  // ----- the bytes of all eras -----

  function AllTexts(eras: seq<Era>): seq<Text> {
    if eras == [] then []
    else
      var last := eras[|eras| - 1];
      AllTexts(eras[..|eras| - 1]) + Texts(last, |Final(last).written|)
  }

  predicate AnyTorn(eras: seq<Era>) {
    exists i :: 0 <= i < |eras| && TornIn(eras[i])
  }

  /** The file is `records`, each whole on a line, and then nothing, or part of one more line if an append was torn. */
  ghost predicate Holds(decode: Decode, eras: seq<Era>, tail: Text) {
    && File(eras) == Joined(AllTexts(eras)) + tail
    && EncodesAll(decode, AllTexts(eras), Records(eras))
    && (if AnyTorn(eras) then IsPart(tail) else tail == [])
  }

  lemma LivedBefore(decode: Decode, eras: seq<Era>, n: nat)
    requires Lived(decode, eras) && n <= |eras|
    ensures Lived(decode, eras[..n])
  {
    hide Encoded, AcceptsText, File, Attempts;
    forall i | 0 <= i < n && Attempts(eras[..n][i]) != [] ensures AcceptsText(decode, File(eras[..n][..i]), true) {
      assert eras[..n][i] == eras[i] && eras[..n][..i] == eras[..i];
    }
  }

  /** A file that ends in part of a record is refused; any other is accepted exactly when its records are. */
  lemma HeldIsAcceptedIff(decode: Decode, eras: seq<Era>, tail: Text, requireTerminal: bool)
    requires Holds(decode, eras, tail)
    ensures AcceptsText(decode, File(eras), requireTerminal) <==> !AnyTorn(eras) && Accepts(Records(eras), requireTerminal)
  {
    if AnyTorn(eras) {
      var text, k :| PartOf(tail, text, k);
      PartIsRefused(decode, Joined(AllTexts(eras)), text, k, requireTerminal);
    } else {
      WholeTextIsItsRecords(decode, AllTexts(eras), Records(eras), requireTerminal);
      assert Joined(AllTexts(eras)) + [] == Joined(AllTexts(eras));
    }
  }

  lemma TornBefore(eras: seq<Era>)
    requires eras != []
    ensures AnyTorn(eras) <==> AnyTorn(eras[..|eras| - 1]) || TornIn(eras[|eras| - 1])
  {
    hide TornIn;
    var init := eras[..|eras| - 1];
    assert forall i :: 0 <= i < |init| ==> init[i] == eras[i];
  }

  /** An era that never gets to its writer changes nothing. */
  lemma IdleEra(decode: Decode, eras: seq<Era>)
    requires eras != [] && Encoded(decode, eras[|eras| - 1]) && Attempts(eras[|eras| - 1]) == []
    ensures var init := eras[..|eras| - 1];
      File(eras) == File(init) && AllTexts(eras) == AllTexts(init) && Records(eras) == Records(init) && AnyTorn(eras) == AnyTorn(init)
  {
    var n := |eras| - 1;
    EraAppends(decode, File(eras[..n]), eras[n]);
    PartIffTorn(decode, eras[n]);
    TornBefore(eras);
    hide Attempts, Final, Appended, Part, AnyTorn, TornIn, Encoded;
    assert File(eras[..n]) + Joined([]) + [] == File(eras[..n]);
  }

  lemma EncodesAllConcat(decode: Decode, texts: seq<Text>, records: seq<Record>, moreTexts: seq<Text>, moreRecords: seq<Record>)
    requires EncodesAll(decode, texts, records) && EncodesAll(decode, moreTexts, moreRecords)
    ensures EncodesAll(decode, texts + moreTexts, records + moreRecords)
  {
    hide Encodes;
  }

  /** An era that starts on whole records adds more, and then possibly part of one. */
  lemma ActiveEra(decode: Decode, eras: seq<Era>)
    requires eras != [] && Encoded(decode, eras[|eras| - 1]) && Holds(decode, eras[..|eras| - 1], []) && !AnyTorn(eras[..|eras| - 1])
    ensures Holds(decode, eras, Part(eras[|eras| - 1]))
  {
    var n := |eras| - 1;
    var init, e := eras[..n], eras[n];
    var texts := Texts(e, |Final(e).written|);
    TornBefore(eras);
    PartIffTorn(decode, e);
    TextsReadBack(decode, e);
    EraAppends(decode, File(init), e);
    hide Attempts, Final, Appended, Part, AnyTorn, TornIn, Encoded, IsPart, EncodesAll, Joined, Texts, Written;
    EncodesAllConcat(decode, AllTexts(init), Records(init), texts, Written(e));
    assert File(eras) == Joined(AllTexts(eras)) + Part(e) by {
      JoinedConcat(AllTexts(init), texts);
      assert File(init) == Joined(AllTexts(init));
    }
  }

  /** One more era, in which the writer was at work or not. */
  lemma HoldsNext(decode: Decode, eras: seq<Era>, tail: Text) returns (longer: Text)
    requires eras != [] && Lived(decode, eras) && Holds(decode, eras[..|eras| - 1], tail)
    ensures Holds(decode, eras, longer)
    ensures AnyTorn(eras[..|eras| - 1]) ==> Attempts(eras[|eras| - 1]) == []
  {
    var n := |eras| - 1;
    hide Attempts, Encoded, AcceptsText, Accepts, IsPart, AnyTorn, Part, File, AllTexts, Records, EncodesAll, Joined;
    HeldIsAcceptedIff(decode, eras[..n], tail, true);
    assert Attempts(eras[n]) != [] ==> AcceptsText(decode, File(eras[..n]), true);
    if Attempts(eras[n]) == [] {
      IdleEra(decode, eras);
      longer := tail;
    } else {
      ActiveEra(decode, eras);
      longer := Part(eras[n]);
    }
  }

  lemma {:induction false} FileHolds(decode: Decode, eras: seq<Era>) returns (tail: Text)
    requires Lived(decode, eras)
    ensures Holds(decode, eras, tail)
    decreases |eras|
  {
    if eras == [] {
      tail := [];
    } else {
      LivedBefore(decode, eras, |eras| - 1);
      hide Lived, Holds;
      var before := FileHolds(decode, eras[..|eras| - 1]);
      tail := HoldsNext(decode, eras, before);
    }
  }

  /** A controller that wrote found whole records that end terminal. */
  lemma LivedHandsOver(decode: Decode, eras: seq<Era>)
    requires Lived(decode, eras)
    ensures HandedOver(eras)
  {
    hide Accepts, AcceptsText, File, Records, Encoded;
    forall i | 0 <= i < |eras| && Written(eras[i]) != [] ensures Accepts(Records(eras[..i]), true) {
      LivedBefore(decode, eras, i);
      var tail := FileHolds(decode, eras[..i]);
      HeldIsAcceptedIff(decode, eras[..i], tail, true);
      EraFacts(eras[i]);
    }
  }

  // ----- the theorems -----

  /** Writer and validator agree across restarts. Whatever the controllers did, in whatever interleaving and whatever the
      system calls did, the file is whole records on their lines and then nothing, or part of one record if some append
      was torn. The validator accepts it exactly when none was; and accepts it as finished exactly when, in addition, it
      holds no record or the last one ends in STOPPED or ESTOPPED. */
  lemma FileIsAcceptedIffUntorn(decode: Decode, eras: seq<Era>)
    requires Lived(decode, eras)
    ensures exists tail :: Holds(decode, eras, tail)
    ensures AcceptsText(decode, File(eras), false) <==> !AnyTorn(eras)
    ensures AcceptsText(decode, File(eras), true) <==>
      !AnyTorn(eras) && (Records(eras) == [] || Terminal(Last(Records(eras))))
  {
    var tail := FileHolds(decode, eras);
    HeldIsAcceptedIff(decode, eras, tail, false);
    HeldIsAcceptedIff(decode, eras, tail, true);
    LivedHandsOver(decode, eras);
    RecordsAreAccepted(eras);
  }

  /** After a torn append nobody writes: every later controller is quarantined, and the file stays as it is. */
  lemma {:induction false} NothingFollowsATear(decode: Decode, eras: seq<Era>, i: nat, j: nat)
    requires Lived(decode, eras) && i < j < |eras| && TornIn(eras[i])
    ensures Attempts(eras[j]) == [] && File(eras[..j + 1]) == File(eras[..i + 1])
    decreases j
  {
    hide Encoded, AcceptsText, File, Attempts, TornIn, Holds;
    LivedBefore(decode, eras, j);
    LivedBefore(decode, eras, j + 1);
    var tail := FileHolds(decode, eras[..j]);
    HeldIsAcceptedIff(decode, eras[..j], tail, true);
    assert eras[..j][i] == eras[i] && AnyTorn(eras[..j]);
    assert eras[..j + 1][..|eras[..j + 1]| - 1] == eras[..j];
    IdleEra(decode, eras[..j + 1]);
    if j == i + 1 {
    } else {
      NothingFollowsATear(decode, eras, i, j - 1);
    }
  }

  /** The first transition of a gateway. */
  const DISCOVERY: G.Transition := G.Transition(0, NEW, DISCOVERED, None)

  /** A torn file is real: one controller whose first append is torn leaves it, and it is refused. */
  lemma TornFileIsRefused(decode: Decode, mode: G.Mode, session: string, text: Text, script: F.Script) returns (e: Era)
    requires Encodes(decode, text, Record(ItemFor(DISCOVERY), session, true)) && F.Tears(|text| + 1, script)
    ensures Lived(decode, [e]) && TornIn(e) && e.mode == mode
    ensures File([e]) == (text + [NEWLINE])[..F.Left(|text| + 1, script)]
    ensures !AcceptsText(decode, File([e]), false)
  {
    var steps := [D.GatewayMoves(DISCOVERED, None), D.Registers(0), D.Enters(0, Some(0)), D.Decides(0, false),
                  D.WriterRuns(0, |text| + 1, script)];
    e := Era(session, mode, steps, _ => text);
    OneAttempt(mode, |text| + 1, script);
    var attempt := D.Attempt(ItemFor(DISCOVERY), |text| + 1, script);
    assert Attempts(e) == [attempt] && Attempts(e)[0] == attempt && D.Torn(attempt);
    WholeTextIsItsRecords(decode, [], [], true);
    assert Encoded(decode, e) && [e][..0] == [] && File([]) == Joined([]);
    EraFacts(e);
    assert D.Whole(attempt) <==> F.Left(|text| + 1, script) == |text| + 1;
    EraAppends(decode, [], e);
    SameLeft(decode, e, 0);
    hide Final, AcceptsText, Encodes, F.Left, ItemFor, Encoded;
    FileIsAcceptedIffUntorn(decode, [e]);
  }

  lemma OneAttempt(mode: G.Mode, length: nat, script: F.Script)
    requires length > 0
    ensures D.Run(D.Init(mode), [D.GatewayMoves(DISCOVERED, None), D.Registers(0), D.Enters(0, Some(0)), D.Decides(0, false),
                                 D.WriterRuns(0, length, script)]).attempts
      == [D.Attempt(ItemFor(DISCOVERY), length, script)]
  {
    var steps := [D.GatewayMoves(DISCOVERED, None), D.Registers(0), D.Enters(0, Some(0)), D.Decides(0, false),
                  D.WriterRuns(0, length, script)];
    var s1 := D.Next(D.Init(mode), steps[0]);
    var s2 := D.Next(s1, steps[1]);
    var s3 := D.Next(s2, steps[2]);
    var s4 := D.Next(s3, steps[3]);
    var s5 := D.Next(s4, steps[4]);
    assert s1.shared.log == [DISCOVERY];
    assert s4.threads[0] == D.Appending(Some(0), ItemFor(DISCOVERY), None);
    RunStep(D.Init(mode), steps);
    RunStep(s1, steps[1..]);
    RunStep(s2, steps[1..][1..]);
    RunStep(s3, steps[1..][1..][1..]);
    RunStep(s4, steps[1..][1..][1..][1..]);
    assert s5.attempts == [D.Attempt(ItemFor(DISCOVERY), length, script)];
  }

  lemma RunStep(s: D.State, steps: seq<D.Step>)
    requires steps != []
    ensures D.Run(s, steps) == D.Run(D.Next(s, steps[0]), steps[1..])
  {
  }
}
