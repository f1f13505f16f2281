/** The audit file as text: one encoded record to a line. What the validator makes of the bytes, and what it makes of a
    file that ends in part of a record. Reading one line back is a parameter, `decode`. */
module AuditText {
  import opened SafetyTypes
  import opened AuditRecords
  import opened AuditHistory
  import F = AuditFile

  type Text = seq<F.byte>

  type Decode = Text -> Option<Record>

  const NEWLINE: F.byte := 10
  const CARRIAGE_RETURN: F.byte := 13
  const MAX_RECORD_BYTES: nat := 4096

  predicate IsBreak(b: F.byte) {
    b == NEWLINE || b == CARRIAGE_RETURN
  }

  predicate Unbroken(text: Text) {
    forall k :: 0 <= k < |text| ==> !IsBreak(text[k])
  }

  // ----- the validator -----

  function FirstBreak(raw: Text): (k: nat)
    ensures k <= |raw| && Unbroken(raw[..k]) && (k < |raw| ==> IsBreak(raw[k]))
  {
    if raw == [] || IsBreak(raw[0]) then 0
    else
      var k := FirstBreak(raw[1..]);
      assert forall j :: 0 < j < k + 1 ==> raw[j] == raw[1..][..k][j - 1];
      k + 1
  }

  /** `splitlines`: a line ends at a newline, a carriage return, or the two together; the last one need not end. */
  function Lines(raw: Text): seq<Text>
    decreases |raw|
  {
    if raw == [] then []
    else
      var k := FirstBreak(raw);
      if k == |raw| then [raw]
      else
        var rest := if raw[k] == CARRIAGE_RETURN && k + 1 < |raw| && raw[k + 1] == NEWLINE then raw[k + 2..] else raw[k + 1..];
        [raw[..k]] + Lines(rest)
  }

  predicate Readable(decode: Decode, line: Text) {
    line != [] && |line| + 1 <= MAX_RECORD_BYTES && decode(line).Some?
  }

  function Decoded(decode: Decode, lines: seq<Text>): (records: seq<Record>)
    requires forall k :: 0 <= k < |lines| ==> Readable(decode, lines[k])
    ensures |records| == |lines| && forall k :: 0 <= k < |lines| ==> decode(lines[k]) == Some(records[k])
  {
    if lines == [] then []
    else
      assert Readable(decode, lines[0]);
      [decode(lines[0]).value] + Decoded(decode, lines[1..])
  }

  predicate Ended(raw: Text) {
    raw == [] || raw[|raw| - 1] == NEWLINE
  }

  predicate AcceptsText(decode: Decode, raw: Text, requireTerminal: bool) {
    && Ended(raw)
    && (forall k :: 0 <= k < |Lines(raw)| ==> Readable(decode, Lines(raw)[k]))
    && Accepts(Decoded(decode, Lines(raw)), requireTerminal)
  }

  method ValidateText(decode: Decode, raw: Text, requireTerminal: bool) returns (ok: bool)
    ensures ok == AcceptsText(decode, raw, requireTerminal)
  {
    if raw != [] && raw[|raw| - 1] != NEWLINE { return false; }
    var lines := Lines(raw);
    var records := [];
    for k := 0 to |lines|
      invariant |records| == k && forall j :: 0 <= j < k ==> Readable(decode, lines[j]) && records[j] == decode(lines[j]).value
    {
      if lines[k] == [] || |lines[k]| + 1 > MAX_RECORD_BYTES { return false; }
      var record := decode(lines[k]);
      if record.None? { return false; }
      records := records + [record.value];
    }
    assert records == Decoded(decode, lines);
    ok := ValidateHistory(records, requireTerminal);
  }

  // ----- what is written -----

  /** `text` is what the writer may put on a line for `r`, whatever the clocks: one unbroken line that reads back. */
  predicate Encodes(decode: Decode, text: Text, r: Record) {
    Unbroken(text) && Readable(decode, text) && decode(text) == Some(r)
  }

  ghost predicate EncodesAll(decode: Decode, texts: seq<Text>, records: seq<Record>) {
    |texts| == |records| && forall k :: 0 <= k < |texts| ==> Encodes(decode, texts[k], records[k])
  }

  function Joined(texts: seq<Text>): Text {
    if texts == [] then [] else Joined(texts[..|texts| - 1]) + texts[|texts| - 1] + [NEWLINE]
  }

  lemma FirstBreakIs(raw: Text, k: nat)
    requires k < |raw| && Unbroken(raw[..k]) && IsBreak(raw[k])
    ensures FirstBreak(raw) == k
  {
    var j := FirstBreak(raw);
    assert forall i :: 0 <= i < k ==> raw[..k][i] == raw[i];
    assert forall i :: 0 <= i < j ==> raw[..j][i] == raw[i];
  }

  lemma LinesOfFirst(text: Text, rest: Text)
    requires Unbroken(text)
    ensures Lines(text + [NEWLINE] + rest) == [text] + Lines(rest)
  {
    var raw := text + [NEWLINE] + rest;
    assert raw[..|text|] == text;
    FirstBreakIs(raw, |text|);
    assert raw[|text| + 1..] == rest;
  }

  lemma {:induction false} JoinedConcat(a: seq<Text>, b: seq<Text>)
    ensures Joined(a + b) == Joined(a) + Joined(b)
    decreases |b|
  {
    if b == [] {
      assert a + b == a;
    } else {
      var n := |b| - 1;
      assert (a + b)[..|a + b| - 1] == a + b[..n];
      JoinedConcat(a, b[..n]);
      assert Joined(a) + (Joined(b[..n]) + b[n] + [NEWLINE]) == Joined(a) + Joined(b[..n]) + b[n] + [NEWLINE];
    }
  }

  lemma JoinedFromTheFront(texts: seq<Text>)
    requires texts != []
    ensures Joined(texts) == texts[0] + [NEWLINE] + Joined(texts[1..])
  {
    JoinedConcat([texts[0]], texts[1..]);
    assert texts == [texts[0]] + texts[1..];
    assert Joined([texts[0]]) == Joined([]) + texts[0] + [NEWLINE] == texts[0] + [NEWLINE];
  }

  lemma {:induction false} LinesOfJoined(texts: seq<Text>)
    requires forall k :: 0 <= k < |texts| ==> Unbroken(texts[k])
    ensures Lines(Joined(texts)) == texts
    decreases |texts|
  {
    if texts == [] {
    } else {
      JoinedFromTheFront(texts);
      LinesOfFirst(texts[0], Joined(texts[1..]));
      LinesOfJoined(texts[1..]);
    }
  }

  lemma JoinedEnds(texts: seq<Text>)
    ensures Ended(Joined(texts))
  {
  }

  /** Text made of whole records is accepted exactly when the records are. */
  lemma WholeTextIsItsRecords(decode: Decode, texts: seq<Text>, records: seq<Record>, requireTerminal: bool)
    requires EncodesAll(decode, texts, records)
    ensures AcceptsText(decode, Joined(texts), requireTerminal) <==> Accepts(records, requireTerminal)
  {
    LinesOfJoined(texts);
    JoinedEnds(texts);
    assert Decoded(decode, texts) == records;
  }

  /** Text that ends in a proper part of a record is refused, whatever comes before. */
  lemma PartIsRefused(decode: Decode, before: Text, text: Text, k: nat, requireTerminal: bool)
    requires Unbroken(text) && 0 < k <= |text|
    ensures !AcceptsText(decode, before + (text + [NEWLINE])[..k], requireTerminal)
  {
    var raw := before + (text + [NEWLINE])[..k];
    assert raw[|raw| - 1] == text[k - 1];
  }
}
