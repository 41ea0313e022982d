/**
 The ledger verifier as a list: what is asked of an entry where it stands, in order, and the
 verdict and hashes its first failure gives. And what a sound chain says of its times.
 */
module LedgerTables {
  import opened Outcomes
  import opened Text
  import opened Calendar
  import opened Json
  import opened Hashing
  import Evidence
  import opened Ledger

  /** The hash an entry should carry: its five fields as canonical JSON, followed by the hash before it. */
  function Sealing(caseId: string, entryType: string, payload: Json, recordedAt: string, sequence: int, before: string)
    : Digest
  {
    Sha256Hex(Print(Obj([Member("case_id", Str(caseId)), Member("entry_type", Str(entryType)),
                         Member("payload", payload), Member("recorded_at", Str(recordedAt)),
                         Member("sequence", Int(sequence))])) + before)
  }

  /** The entry's payload is JSON without floats. */
  predicate Readable(e: Entry) {
    Parse(e.payloadJson, Plain).Ok? && NoFloats(Parse(e.payloadJson, Plain).value)
  }

  /** The case every entry from the second on must be of, unless one is expected from outside. */
  function CaseOf(entries: seq<Entry>, i: nat, expected: Option<string>): Option<string>
    requires i < |entries|
  {
    if expected.Some? then expected else if i == 0 then None else Some(entries[0].caseId)
  }

  function Before(entries: seq<Entry>, i: nat): string
    requires i < |entries|
  {
    if i == 0 then seq(64, _ => '0') else entries[i - 1].entryHash
  }

  /** Recorded no earlier than the entry before it. */
  predicate InTime(entries: seq<Entry>, i: nat)
    requires i < |entries|
  {
    i > 0 && ParseTimestamp(entries[i - 1].recordedAt).Some? && ParseTimestamp(entries[i].recordedAt).Some? ==>
      ParseTimestamp(entries[i - 1].recordedAt).value <= ParseTimestamp(entries[i].recordedAt).value
  }

  function Computed(e: Entry): Digest {
    match Parse(e.payloadJson, Plain)
    case Ok(payload) => Sealing(e.caseId, e.entryType, payload, e.recordedAt, e.sequence, e.previousHash)
    case Err(_) => Sha256Hex("")
  }

  /** What is asked of the entry at `i`, in order, each under the reason its failure is reported with. */
  function Checks(entries: seq<Entry>, i: nat, expected: Option<string>): seq<(Reason, bool)>
    requires i < |entries|
  {
    var e, chain := entries[i], CaseOf(entries, i, expected);
    [(SEQUENCE_MISMATCH, e.sequence == i + 1),
     (ENTRY_INVALID, IsIdentifier(e.caseId) && IsIdentifier(e.entryType)),
     (CASE_MISMATCH, chain == None || chain == Some(e.caseId)),
     (PREVIOUS_HASH_MISMATCH, e.previousHash == Before(entries, i)),
     (TIMESTAMP_INVALID, ParseTimestamp(e.recordedAt).Some?),
     (TIMESTAMP_REGRESSION, InTime(entries, i)),
     (PAYLOAD_INVALID, Readable(e)),
     (PAYLOAD_NOT_CANONICAL, Readable(e) ==> Print(Parse(e.payloadJson, Plain).value) == e.payloadJson),
     (ENTRY_HASH_INVALID, IsHexDigest(e.entryHash)),
     (ENTRY_HASH_MISMATCH, e.entryHash == Computed(e))]
  }

  /** The hashes a report carries: only the two hash mismatches show what was expected and what was found. */
  function Shown(entries: seq<Entry>, i: nat, reason: Reason): (Option<string>, Option<string>)
    requires i < |entries|
  {
    if reason == PREVIOUS_HASH_MISMATCH then (Some(Before(entries, i)), Some(entries[i].previousHash))
    else if reason == ENTRY_HASH_MISMATCH then (Some(Computed(entries[i])), Some(entries[i].entryHash))
    else (None, None)
  }

  predicate FirstFailing(checks: seq<(Reason, bool)>, k: nat) {
    k < |checks| && !checks[k].1 && forall m | 0 <= m < k :: checks[m].1
  }

  predicate AllHold(checks: seq<(Reason, bool)>) {
    forall k | 0 <= k < |checks| :: checks[k].1
  }

  lemma DocumentIsObject(e: Entry, payload: Json)
    ensures EntryHash(e, payload)
         == Sealing(e.caseId, e.entryType, payload, e.recordedAt, e.sequence, e.previousHash)
  {
    hide Print;
    assert HashDocument(e, payload)
        == Obj([Member("case_id", Str(e.caseId)), Member("entry_type", Str(e.entryType)), Member("payload", payload),
                Member("recorded_at", Str(e.recordedAt)), Member("sequence", Int(e.sequence))]);
  }

  lemma GenesisIsZeros()
    ensures Genesis() == seq(64, _ => '0')
  {}

  lemma ContentTable(e: Entry)
    ensures ContentFault(e)
         == if !Readable(e) then Some(Fault(PAYLOAD_INVALID, None, None))
            else if Print(Parse(e.payloadJson, Plain).value) != e.payloadJson
            then Some(Fault(PAYLOAD_NOT_CANONICAL, None, None))
            else if !IsHexDigest(e.entryHash) then Some(Fault(ENTRY_HASH_INVALID, None, None))
            else if e.entryHash != Computed(e)
            then Some(Fault(ENTRY_HASH_MISMATCH, Some(Computed(e)), Some(e.entryHash)))
            else None
  {
    hide Parse, Print, NoFloats, EntryHash, Sealing, IsHexDigest;
    if Parse(e.payloadJson, Plain).Ok? { DocumentIsObject(e, Parse(e.payloadJson, Plain).value); }
  }

  lemma FaultFree(entries: seq<Entry>, i: nat, expected: Option<string>)
    requires i < |entries|
    ensures FaultAt(entries, i, expected).None? <==> AllHold(Checks(entries, i, expected))
  {
    hide ContentFault, Readable, Parse, Print, Computed, ParseTimestamp, IsIdentifier, IsHexDigest, Zeros;
    ContentTable(entries[i]);
    GenesisIsZeros();
    var checks := Checks(entries, i, expected);
    if AllHold(checks) {
      assert checks[0].1 && checks[1].1 && checks[2].1 && checks[3].1 && checks[4].1 && checks[5].1 && checks[6].1
          && checks[7].1 && checks[8].1 && checks[9].1;
    }
  }

  lemma FaultNamed(entries: seq<Entry>, i: nat, expected: Option<string>, k: nat)
    requires i < |entries| && FirstFailing(Checks(entries, i, expected), k)
    ensures var reason := Checks(entries, i, expected)[k].0;
      var shown := Shown(entries, i, reason);
      FaultAt(entries, i, expected) == Some(Fault(reason, shown.0, shown.1))
  {
    hide ContentFault, Readable, Parse, Print, Computed, ParseTimestamp, IsIdentifier, IsHexDigest, Zeros;
    ContentTable(entries[i]);
    GenesisIsZeros();
    EarlierHold(Checks(entries, i, expected), k);
  }

  /** An entry is at fault exactly under the first of its checks that fails, and sound when none does. */
  lemma FaultTable(entries: seq<Entry>, i: nat, expected: Option<string>)
    requires i < |entries|
    ensures FaultAt(entries, i, expected).None? <==> AllHold(Checks(entries, i, expected))
    ensures forall k: nat | FirstFailing(Checks(entries, i, expected), k) ::
              var reason := Checks(entries, i, expected)[k].0;
              var shown := Shown(entries, i, reason);
              FaultAt(entries, i, expected) == Some(Fault(reason, shown.0, shown.1))
  {
    hide FaultAt, Checks, Shown, AllHold;
    FaultFree(entries, i, expected);
    forall k: nat | FirstFailing(Checks(entries, i, expected), k)
      ensures var shown := Shown(entries, i, Checks(entries, i, expected)[k].0);
        FaultAt(entries, i, expected) == Some(Fault(Checks(entries, i, expected)[k].0, shown.0, shown.1))
    {
      FaultNamed(entries, i, expected, k);
    }
  }

  lemma EarlierHold(checks: seq<(Reason, bool)>, k: nat)
    requires |checks| == 10 && FirstFailing(checks, k)
    ensures (k > 0 ==> checks[0].1) && (k > 1 ==> checks[1].1) && (k > 2 ==> checks[2].1) && (k > 3 ==> checks[3].1)
    ensures (k > 4 ==> checks[4].1) && (k > 5 ==> checks[5].1) && (k > 6 ==> checks[6].1) && (k > 7 ==> checks[7].1)
    ensures k > 8 ==> checks[8].1
  {}

  /** In a sound chain every entry is recorded no earlier than any entry before it. */
  lemma {:induction false} TimesAscend(entries: seq<Entry>, expected: Option<string>, i: nat, j: nat)
    requires Sound(entries, expected) && i <= j < |entries|
    ensures ParseTimestamp(entries[i].recordedAt).Some? && ParseTimestamp(entries[j].recordedAt).Some?
    ensures ParseTimestamp(entries[i].recordedAt).value <= ParseTimestamp(entries[j].recordedAt).value
    decreases j
  {
    hide FaultAt, Checks, ParseTimestamp;
    SoundTime(entries, expected, i);
    SoundTime(entries, expected, j);
    if i < j { TimesAscend(entries, expected, i, j - 1); }
  }

  lemma SoundTime(entries: seq<Entry>, expected: Option<string>, i: nat)
    requires Sound(entries, expected) && i < |entries|
    ensures ParseTimestamp(entries[i].recordedAt).Some? && InTime(entries, i)
  {
    hide FaultAt, ParseTimestamp, Readable, Computed, IsIdentifier, IsHexDigest, Print, Parse;
    assert FaultAt(entries, i, expected).None?;
    FaultTable(entries, i, expected);
    var checks := Checks(entries, i, expected);
    assert checks[4].1 && checks[5].1;
  }

  /** The entry an accepted append adds, field by field. */
  lemma AppendedEntry(entries: seq<Entry>, caseId: string, entryType: string, payload: Json, at: UtcTime)
    ensures var e := NewEntry(entries, caseId, entryType, payload, at);
      var before := if entries == [] then seq(64, _ => '0') else entries[|entries| - 1].entryHash;
      e == Entry(|entries| + 1, caseId, FormatTimestamp(at), entryType, Print(payload), before,
                 Sealing(caseId, entryType, payload, FormatTimestamp(at), |entries| + 1, before))
  {
    hide Print, FormatTimestamp, EntryHash, Sealing, Zeros;
    GenesisIsZeros();
    var before := HashBefore(entries, |entries|);
    DocumentIsObject(Entry(|entries| + 1, caseId, FormatTimestamp(at), entryType, Print(payload), before, Genesis()),
                     payload);
  }

  /** An append is refused exactly for a bad type, a payload with no canonical form, or a time before the last one. */
  lemma RefusalTable(entries: seq<Entry>, entryType: string, payload: Evidence.Value, at: UtcTime,
                     expected: Option<string>)
    requires Sound(entries, expected)
    ensures var r := Refusal(entries, entryType, payload, at);
      var last := if entries == [] then None else ParseTimestamp(entries[|entries| - 1].recordedAt);
      var late := last.Some? && at < last.value;
      && (r == Some(IntegrityFault) <==> IsIdentifier(entryType) && payload.Mapping? && late)
      && (r == None <==> IsIdentifier(entryType) && payload.Mapping? && !late && Evidence.Normalize(payload).Ok?)
  {
    hide Sound, ParseTimestamp, IsIdentifier, Evidence.Normalize;
    if entries != [] { SoundTime(entries, expected, |entries| - 1); }
  }
}
