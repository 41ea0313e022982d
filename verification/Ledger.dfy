/** The append-only, hash-chained decision ledger of one case. */
module Ledger {
  import opened Outcomes
  import opened Text
  import opened Calendar
  import opened Json
  import opened Hashing
  import Evidence

  datatype Entry = Entry(sequence: int, caseId: string, recordedAt: string, entryType: string, payloadJson: string,
                         previousHash: string, entryHash: string)

  datatype Reason =
    | SEQUENCE_MISMATCH | ENTRY_INVALID | CASE_MISMATCH | PREVIOUS_HASH_MISMATCH | TIMESTAMP_INVALID
    | TIMESTAMP_REGRESSION | PAYLOAD_INVALID | PAYLOAD_NOT_CANONICAL | ENTRY_HASH_INVALID | ENTRY_HASH_MISMATCH

  /** The verdict on a chain: good, or the first bad entry and why, with the hashes where a hash is at fault. */
  datatype Verification =
    | Valid(checkedEntries: nat)
    | Invalid(reason: Reason, errorIndex: nat, expectedHash: Option<string>, actualHash: Option<string>)

  datatype LedgerError = InvalidValue | IntegrityFault

  function Genesis(): (s: string)
    ensures IsHexDigest(s)
  {
    Zeros()
  }

  // ---- One entry ----

  /** Canonical text of parsed JSON; a float anywhere is refused. */
  function CanonicalText(j: Json): Option<string> {
    if NoFloats(j) then Some(Print(j)) else None
  }

  function HashKeys(): seq<string> { ["case_id", "entry_type", "payload", "recorded_at", "sequence"] }

  function HashDocument(e: Entry, payload: Json): Json {
    Record(HashKeys(), [Str(e.caseId), Str(e.entryType), payload, Str(e.recordedAt), Int(e.sequence)])
  }

  /** The text an entry's hash is taken over. */
  function Material(e: Entry, payload: Json): string {
    Print(HashDocument(e, payload)) + e.previousHash
  }

  function EntryHash(e: Entry, payload: Json): Digest {
    Sha256Hex(Material(e, payload))
  }

  datatype Fault = Fault(reason: Reason, expected: Option<string>, actual: Option<string>)

  function Plainly(reason: Reason): Option<Fault> {
    Some(Fault(reason, None, None))
  }

  /** What is wrong with an entry's payload or hash, in the order they are checked. */
  function ContentFault(e: Entry): Option<Fault> {
    match Parse(e.payloadJson, Plain)
    case Err(_) => Plainly(PAYLOAD_INVALID)
    case Ok(payload) =>
      match CanonicalText(payload)
      case None => Plainly(PAYLOAD_INVALID)
      case Some(text) =>
        if text != e.payloadJson then Plainly(PAYLOAD_NOT_CANONICAL)
        else if !IsHexDigest(e.entryHash) then Plainly(ENTRY_HASH_INVALID)
        else if e.entryHash != EntryHash(e, payload)
        then Some(Fault(ENTRY_HASH_MISMATCH, Some(EntryHash(e, payload)), Some(e.entryHash)))
        else None
  }

  /** What is wrong with the entry at `index`, given where the chain stands. */
  function EntryFault(e: Entry, index: nat, chainCase: Option<string>, previousHash: string, previousTime: Option<int>)
    : Option<Fault>
  {
    if e.sequence != index + 1 then Plainly(SEQUENCE_MISMATCH)
    else if !IsIdentifier(e.caseId) || !IsIdentifier(e.entryType) then Plainly(ENTRY_INVALID)
    else if chainCase.Some? && e.caseId != chainCase.value then Plainly(CASE_MISMATCH)
    else if e.previousHash != previousHash
    then Some(Fault(PREVIOUS_HASH_MISMATCH, Some(previousHash), Some(e.previousHash)))
    else
      match ParseTimestamp(e.recordedAt)
      case None => Plainly(TIMESTAMP_INVALID)
      case Some(t) =>
        if previousTime.Some? && t < previousTime.value then Plainly(TIMESTAMP_REGRESSION) else ContentFault(e)
  }

  // ---- The chain, stated without a running state ----

  function ChainCase(entries: seq<Entry>, index: nat, expected: Option<string>): Option<string>
    requires index <= |entries|
  {
    if expected.Some? || index == 0 then expected else Some(entries[0].caseId)
  }

  function HashBefore(entries: seq<Entry>, index: nat): string
    requires index <= |entries|
  {
    if index == 0 then Genesis() else entries[index - 1].entryHash
  }

  function TimeBefore(entries: seq<Entry>, index: nat): Option<int>
    requires index <= |entries|
  {
    if index == 0 then None else ParseTimestamp(entries[index - 1].recordedAt)
  }

  function FaultAt(entries: seq<Entry>, index: nat, expected: Option<string>): Option<Fault>
    requires index < |entries|
  {
    EntryFault(entries[index], index, ChainCase(entries, index, expected), HashBefore(entries, index),
               TimeBefore(entries, index))
  }

  /** Every entry is sound where it stands. */
  predicate Sound(entries: seq<Entry>, expected: Option<string>) {
    forall i | 0 <= i < |entries| :: FaultAt(entries, i, expected).None?
  }

  /** The verdict names the first bad entry, or clears all of them. */
  predicate Verdict(entries: seq<Entry>, expected: Option<string>, v: Verification) {
    match v
    case Valid(checked) => checked == |entries| && Sound(entries, expected)
    case Invalid(reason, index, expectedHash, actualHash) =>
      && index < |entries|
      && FaultAt(entries, index, expected) == Some(Fault(reason, expectedHash, actualHash))
      && forall i | 0 <= i < index :: FaultAt(entries, i, expected).None?
  }

  /** There is exactly one verdict on a chain. */
  lemma VerdictIsUnique(entries: seq<Entry>, expected: Option<string>, v: Verification, u: Verification)
    requires Verdict(entries, expected, v) && Verdict(entries, expected, u)
    ensures v == u
  {
    hide FaultAt;
    if v.Invalid? && u.Invalid? {
      assert v.errorIndex == u.errorIndex;
    }
  }

  /** The verifier as it runs: one pass with a running hash, time and case. */
  method VerifyLedger(entries: seq<Entry>, expected: Option<string>) returns (r: Result<Verification, LedgerError>)
    ensures r.Err? <==> expected.Some? && !IsIdentifier(expected.value)
    ensures r.Ok? ==> Verdict(entries, expected, r.value)
  {
    hide ContentFault, IsIdentifier, ParseTimestamp;
    if expected.Some? && !IsIdentifier(expected.value) { return Err(InvalidValue); }
    var chainCase := expected;
    var previousHash := Genesis();
    var previousTime: Option<int> := None;
    for index := 0 to |entries|
      invariant chainCase == ChainCase(entries, index, expected)
      invariant previousHash == HashBefore(entries, index)
      invariant previousTime == TimeBefore(entries, index)
      invariant forall i | 0 <= i < index :: FaultAt(entries, i, expected).None?
    {
      var entry := entries[index];
      if entry.sequence != index + 1 { return Ok(Invalid(SEQUENCE_MISMATCH, index, None, None)); }
      if !IsIdentifier(entry.caseId) || !IsIdentifier(entry.entryType) {
        return Ok(Invalid(ENTRY_INVALID, index, None, None));
      }
      var before := chainCase;
      if chainCase.None? { chainCase := Some(entry.caseId); }
      if entry.caseId != chainCase.value { return Ok(Invalid(CASE_MISMATCH, index, None, None)); }
      if entry.previousHash != previousHash {
        return Ok(Invalid(PREVIOUS_HASH_MISMATCH, index, Some(previousHash), Some(entry.previousHash)));
      }
      var recordedAt := ParseTimestamp(entry.recordedAt);
      if recordedAt.None? { return Ok(Invalid(TIMESTAMP_INVALID, index, None, None)); }
      if previousTime.Some? && recordedAt.value < previousTime.value {
        return Ok(Invalid(TIMESTAMP_REGRESSION, index, None, None));
      }
      assert FaultAt(entries, index, expected) == ContentFault(entry);
      var content := ContentFault(entry);
      if content.Some? {
        return Ok(Invalid(content.value.reason, index, content.value.expected, content.value.actual));
      }
      previousHash := entry.entryHash;
      previousTime := recordedAt;
    }
    return Ok(Valid(|entries|));
  }

  // ---- The ledger ----

  /** The entry an append adds, once its inputs are accepted. */
  function NewEntry(entries: seq<Entry>, caseId: string, entryType: string, payload: Json, at: UtcTime): Entry {
    var provisional := Entry(|entries| + 1, caseId, FormatTimestamp(at), entryType, Print(payload),
                             HashBefore(entries, |entries|), Genesis());
    provisional.(entryHash := EntryHash(provisional, payload))
  }

  /** An append is refused for a bad type, a payload that is no mapping or has no canonical form, or an earlier time. */
  function Refusal(entries: seq<Entry>, entryType: string, payload: Evidence.Value, at: UtcTime): Option<LedgerError> {
    if !IsIdentifier(entryType) || !payload.Mapping? then Some(InvalidValue)
    else if entries != [] && TimeBefore(entries, |entries|).None? then Some(InvalidValue)
    else if entries != [] && at < TimeBefore(entries, |entries|).value then Some(IntegrityFault)
    else if Evidence.Normalize(payload).Err? then Some(InvalidValue)
    else None
  }

  class DecisionLedger {
    const caseId: string
    var entries: seq<Entry>

    ghost predicate Verified()
      reads this
    {
      IsIdentifier(caseId) && Sound(entries, Some(caseId))
    }

    constructor (caseId: string, entries: seq<Entry>)
      requires IsIdentifier(caseId) && Sound(entries, Some(caseId))
      ensures this.caseId == caseId && this.entries == entries && Verified()
    {
      this.caseId := caseId;
      this.entries := entries;
    }

    /** Loads stored entries, or refuses them exactly when they do not verify. */
    static method Load(caseId: string, entries: seq<Entry>) returns (r: Result<DecisionLedger, LedgerError>)
      ensures r.Ok? <==> IsIdentifier(caseId) && Sound(entries, Some(caseId))
      ensures r.Ok? ==>
        fresh(r.value) && r.value.caseId == caseId && r.value.entries == entries && r.value.Verified()
      ensures r.Err? ==> r.error == if IsIdentifier(caseId) then IntegrityFault else InvalidValue
    {
      hide FaultAt, IsIdentifier;
      var verified := VerifyLedger(entries, Some(caseId));
      if verified.Err? { return Err(InvalidValue); }
      if verified.value.Invalid? { return Err(IntegrityFault); }
      var ledger := new DecisionLedger(caseId, entries);
      return Ok(ledger);
    }

    method Append(entryType: string, payload: Evidence.Value, at: UtcTime) returns (r: Result<Entry, LedgerError>)
      requires Verified()
      modifies this`entries
      ensures Verified()
      ensures match Refusal(old(entries), entryType, payload, at)
        case Some(e) => r == Err(e) && entries == old(entries)
        case None =>
          && r == Ok(NewEntry(old(entries), caseId, entryType, Evidence.Normalize(payload).value, at))
          && entries == old(entries) + [r.value]
    {
      hide Sound, Evidence.Normalize, IsIdentifier, ParseTimestamp, FormatTimestamp, EntryHash, Print;
      if !IsIdentifier(entryType) || !payload.Mapping? { return Err(InvalidValue); }
      if entries != [] {
        var previousTime := ParseTimestamp(entries[|entries| - 1].recordedAt);
        if previousTime.None? { return Err(InvalidValue); }
        if at < previousTime.value { return Err(IntegrityFault); }
      }
      var primitive := Evidence.ToCanonicalPrimitive(payload);
      if primitive.Err? { return Err(InvalidValue); }
      AppendKeepsSound(entries, caseId, entryType, payload, at);
      var provisional := Entry(|entries| + 1, caseId, FormatTimestamp(at), entryType, Print(primitive.value),
                               if entries == [] then Genesis() else entries[|entries| - 1].entryHash, Genesis());
      var entry := provisional.(entryHash := EntryHash(provisional, primitive.value));
      entries := entries + [entry];
      return Ok(entry);
    }

    method Verify() returns (v: Verification)
      requires Verified()
      ensures v == Verification.Valid(|entries|)
    {
      hide Sound, FaultAt, IsIdentifier;
      var r := VerifyLedger(entries, Some(caseId));
      v := r.value;
      VerdictIsUnique(entries, Some(caseId), v, Verification.Valid(|entries|));
    }
  }

  lemma NewContentIsSound(e: Entry, payload: Json)
    requires Canonical(payload) && e.payloadJson == Print(payload) && e.entryHash == EntryHash(e, payload)
    ensures ContentFault(e).None?
  {
    hide Parse, Print, Canonical, NoFloats, EntryHash;
    ParsePrint(payload, Plain);
    CanonicalIsSortedNoFloats(payload);
  }

  lemma HashIgnoresItself(e: Entry, payload: Json, hash: string)
    ensures EntryHash(e.(entryHash := hash), payload) == EntryHash(e, payload)
  {}

  lemma NewEntryIsSound(entries: seq<Entry>, caseId: string, entryType: string, payload: Json, at: UtcTime)
    requires IsIdentifier(caseId) && IsIdentifier(entryType) && Canonical(payload)
    requires entries != [] ==> TimeBefore(entries, |entries|).Some? && TimeBefore(entries, |entries|).value <= at
    ensures EntryFault(NewEntry(entries, caseId, entryType, payload, at), |entries|, Some(caseId),
                       HashBefore(entries, |entries|), TimeBefore(entries, |entries|)).None?
  {
    hide ContentFault, ParseTimestamp, FormatTimestamp, Canonical, Print, EntryHash, IsIdentifier;
    FormatThenParse(at);
    var e := NewEntry(entries, caseId, entryType, payload, at);
    HashIgnoresItself(e, payload, Genesis());
    NewContentIsSound(e, payload);
  }

  /** Every accepted append leaves a chain that verifies. */
  lemma AppendKeepsSound(entries: seq<Entry>, caseId: string, entryType: string, payload: Evidence.Value, at: UtcTime)
    requires IsIdentifier(caseId) && Sound(entries, Some(caseId))
    requires Refusal(entries, entryType, payload, at).None?
    ensures Sound(entries + [NewEntry(entries, caseId, entryType, Evidence.Normalize(payload).value, at)], Some(caseId))
  {
    hide EntryFault, NewEntry, Evidence.Normalize, IsIdentifier, Canonical, ParseTimestamp;
    Evidence.NormalizedIsCanonical(payload);
    var e := NewEntry(entries, caseId, entryType, Evidence.Normalize(payload).value, at);
    NewEntryIsSound(entries, caseId, entryType, Evidence.Normalize(payload).value, at);
    var longer := entries + [e];
    forall i | 0 <= i < |longer| ensures FaultAt(longer, i, Some(caseId)).None? {
      if i < |entries| { assert FaultAt(entries, i, Some(caseId)).None?; }
    }
  }

  // ---- Equal heads, equal histories ----

  /** The payload a sound entry carries. */
  function PayloadOf(e: Entry): Json {
    match Parse(e.payloadJson, Plain) case Ok(j) => j case Err(_) => Null
  }

  lemma SoundEntry(entries: seq<Entry>, i: nat, expected: Option<string>)
    requires Sound(entries, expected) && i < |entries|
    ensures var e := entries[i];
      && e.sequence == i + 1 && IsHexDigest(e.entryHash) && e.previousHash == HashBefore(entries, i)
      && IsHexDigest(e.previousHash)
      && e.entryHash == Sha256Hex(Material(e, PayloadOf(e))) && e.payloadJson == Print(PayloadOf(e))
      && NoFloats(PayloadOf(e)) && Parse(e.payloadJson, Plain) == Ok(PayloadOf(e))
      && (expected.Some? ==> e.caseId == expected.value)
  {
    hide Parse, Print, NoFloats, IsIdentifier, ParseTimestamp, Material;
    assert FaultAt(entries, i, expected).None?;
    if i > 0 { assert FaultAt(entries, i - 1, expected).None?; }
  }

  lemma SplitAt(a: string, b: string, x: string, y: string)
    requires a + x == b + y && |x| == |y|
    ensures a == b && x == y
  {
    assert |a| == |b|;
    assert a == (a + x)[..|a|] && b == (b + y)[..|a|];
    assert x == (a + x)[|a|..] && y == (b + y)[|a|..];
  }

  /** Entries whose hashes agree are the same entry, or exhibit a collision. */
  lemma SameHashSameEntry(a: seq<Entry>, b: seq<Entry>, i: nat, j: nat, expected: Option<string>)
    requires Sound(a, expected) && Sound(b, expected) && i < |a| && j < |b| && a[i].entryHash == b[j].entryHash
    ensures a[i] == b[j] || Collides(Material(a[i], PayloadOf(a[i])), Material(b[j], PayloadOf(b[j])))
  {
    hide Sound, Parse, Print, NoFloats, HashDocument, PayloadOf, HashBefore;
    var e, f := a[i], b[j];
    SoundEntry(a, i, expected);
    SoundEntry(b, j, expected);
    if Material(e, PayloadOf(e)) == Material(f, PayloadOf(f)) {
      SplitAt(Print(HashDocument(e, PayloadOf(e))), Print(HashDocument(f, PayloadOf(f))), e.previousHash,
              f.previousHash);
      DocumentInjective(e, f);
    }
  }

  /** The hashed document determines every field but the hashes. */
  lemma DocumentInjective(e: Entry, f: Entry)
    requires Parse(e.payloadJson, Plain) == Ok(PayloadOf(e)) && Parse(f.payloadJson, Plain) == Ok(PayloadOf(f))
    requires NoFloats(PayloadOf(e)) && NoFloats(PayloadOf(f))
    requires e.payloadJson == Print(PayloadOf(e)) && f.payloadJson == Print(PayloadOf(f))
    requires Print(HashDocument(e, PayloadOf(e))) == Print(HashDocument(f, PayloadOf(f)))
    ensures e.caseId == f.caseId && e.entryType == f.entryType && e.payloadJson == f.payloadJson
    ensures e.recordedAt == f.recordedAt && e.sequence == f.sequence
  {
    hide Parse, Print, Canonical, NoFloats, Record, ExactObject;
    DocumentCanonical(e);
    DocumentCanonical(f);
    PrintInjective(HashDocument(e, PayloadOf(e)), HashDocument(f, PayloadOf(f)));
    var u := [Str(e.caseId), Str(e.entryType), PayloadOf(e), Str(e.recordedAt), Int(e.sequence)];
    var v := [Str(f.caseId), Str(f.entryType), PayloadOf(f), Str(f.recordedAt), Int(f.sequence)];
    ExactRecord(HashKeys(), u);
    ExactRecord(HashKeys(), v);
    assert u == v;
    assert u[0] == v[0] && u[1] == v[1] && u[2] == v[2] && u[3] == v[3] && u[4] == v[4];
  }

  lemma DocumentCanonical(e: Entry)
    requires Parse(e.payloadJson, Plain) == Ok(PayloadOf(e)) && NoFloats(PayloadOf(e))
    ensures Canonical(HashDocument(e, PayloadOf(e)))
  {
    hide Parse, Canonical, NoFloats, Record, Less, PayloadOf;
    LessAt("case_id", "entry_type", 0);
    LessAt("entry_type", "payload", 0);
    LessAt("payload", "recorded_at", 0);
    LessAt("recorded_at", "sequence", 0);
    ParsedIsCanonical(e.payloadJson, Plain);
    var v := [Str(e.caseId), Str(e.entryType), PayloadOf(e), Str(e.recordedAt), Int(e.sequence)];
    forall j | j in v ensures Canonical(j) { ScalarCanonical(j, PayloadOf(e)); }
    RecordCanonical(HashKeys(), v);
  }

  lemma ScalarCanonical(j: Json, payload: Json)
    requires j.Str? || j.Int? || (j == payload && Canonical(payload))
    ensures Canonical(j)
  {}

  /** Two sound ledgers of one case that end in the same hash agree entry by entry back to the genesis. */
  lemma {:induction false} SameTail(a: seq<Entry>, b: seq<Entry>, i: nat, j: nat, expected: Option<string>)
    requires Sound(a, expected) && Sound(b, expected) && i < |a| && j < |b| && a[i].entryHash == b[j].entryHash
    requires !LedgersCollide(a, b)
    ensures i == j && forall k | 0 <= k <= i :: a[k] == b[k]
  {
    hide Sound, Material, PayloadOf, LedgersCollide, Collides, Parse, Print, NoFloats;
    SameHashSameEntry(a, b, i, j, expected);
    CollisionFound(a, b, i, j);
    SoundEntry(a, i, expected);
    SoundEntry(b, j, expected);
    if i > 0 { SameTail(a, b, i - 1, j - 1, expected); }
  }

  /** Some entry of one ledger and some entry of the other are hashed from different texts to one digest. */
  predicate LedgersCollide(a: seq<Entry>, b: seq<Entry>) {
    exists i, j | 0 <= i < |a| && 0 <= j < |b| ::
      Collides(Material(a[i], PayloadOf(a[i])), Material(b[j], PayloadOf(b[j])))
  }

  lemma CollisionFound(a: seq<Entry>, b: seq<Entry>, i: nat, j: nat)
    requires i < |a| && j < |b|
    ensures Collides(Material(a[i], PayloadOf(a[i])), Material(b[j], PayloadOf(b[j]))) ==> LedgersCollide(a, b)
  {
    hide Collides, Material, PayloadOf;
  }

  /** Equal head hashes mean equal ledgers, or exhibit a collision of SHA-256. */
  lemma EqualHeadsEqualLedgers(a: seq<Entry>, b: seq<Entry>, caseId: string)
    requires Sound(a, Some(caseId)) && Sound(b, Some(caseId)) && a != [] && b != []
    requires a[|a| - 1].entryHash == b[|b| - 1].entryHash
    ensures a == b || LedgersCollide(a, b)
  {
    hide Sound, LedgersCollide;
    if !LedgersCollide(a, b) { SameTail(a, b, |a| - 1, |b| - 1, Some(caseId)); }
  }
}
