/** Normalizing domain values into the deterministic JSON subset that hashes are taken over. */
module Evidence {
  import opened Outcomes
  import opened Text
  import opened Calendar
  import opened Json

  /** A decimal as fixed-point text shows it: sign, digits, and how many follow the point. */
  datatype Decimal = NonFinite | Finite(negative: bool, units: nat, scale: nat)

  datatype Value =
    | Nothing
    | Flag(b: bool)
    | Whole(i: int)
    | Words(s: string)
    | Binary
    | Exact(d: Decimal)
    | Moment(t: UtcTime)
    | Mapping(entries: seq<Entry>)
    | Sequence(items: seq<Value>)
    | Foreign

  datatype Key = Name(s: string) | NotText

  datatype Entry = Entry(key: Key, value: Value)

  datatype EvidenceError = Unsupported

  // ---- Decimals ----

  /** Trailing zeros after the point carry no value. */
  function Stripped(units: nat, scale: nat): (nat, nat)
    decreases scale
  {
    if scale > 0 && units % 10 == 0 then Stripped(units / 10, scale - 1) else (units, scale)
  }

  /** Fixed-point text without trailing zeros; minus zero is plain zero. */
  function DecimalText(d: Decimal): Result<string, EvidenceError> {
    match d
    case NonFinite => Err(Unsupported)
    case Finite(negative, units, scale) =>
      var s := Stripped(units, scale);
      Ok((if negative && units != 0 then "-" else "") + FixedPoint(s.0, s.1))
  }

  // ---- Values ----

  /** Lists keep their order; mappings become sorted objects; floats and foreign values are refused. */
  function Normalize(v: Value): Result<Json, EvidenceError>
    decreases v, 1
  {
    match v
    case Nothing => Ok(Null)
    case Flag(b) => Ok(Bool(b))
    case Whole(i) => Ok(Int(i))
    case Words(s) => Ok(Str(s))
    case Binary => Err(Unsupported)
    case Exact(d) => (match DecimalText(d) case Err(e) => Err(e) case Ok(t) => Ok(Str(t)))
    case Moment(t) => Ok(Str(FormatTimestamp(t)))
    case Mapping(entries) => (match NormalizeEntries(entries, |entries|) case Err(e) => Err(e) case Ok(m) => Ok(Obj(m)))
    case Sequence(items) => (match NormalizeItems(items, |items|) case Err(e) => Err(e) case Ok(js) => Ok(Arr(js)))
    case Foreign => Err(Unsupported)
  }

  /** The dictionary after the first `n` assignments. */
  function NormalizeEntries(entries: seq<Entry>, n: nat): Result<seq<Member>, EvidenceError>
    requires n <= |entries|
    decreases Mapping(entries), 0, n
  {
    if n == 0 then Ok([])
    else
      match NormalizeEntries(entries, n - 1)
      case Err(e) => Err(e)
      case Ok(fields) =>
        match entries[n - 1]
        case Entry(NotText, _) => Err(Unsupported)
        case Entry(Name(key), value) =>
          match Normalize(value)
          case Err(e) => Err(e)
          case Ok(j) => Ok(Put(fields, Member(key, j)))
  }

  /** The list after its first `n` items. */
  function NormalizeItems(items: seq<Value>, n: nat): Result<seq<Json>, EvidenceError>
    requires n <= |items|
    decreases items, 0, n
  {
    if n == 0 then Ok([])
    else
      match NormalizeItems(items, n - 1)
      case Err(e) => Err(e)
      case Ok(js) => (match Normalize(items[n - 1]) case Err(e) => Err(e) case Ok(j) => Ok(js + [j]))
  }

  /** Normalization as it runs: a dictionary filled key by key, a list built item by item. */
  method ToCanonicalPrimitive(v: Value) returns (r: Result<Json, EvidenceError>)
    ensures r == Normalize(v)
    decreases v
  {
    match v {
      case Mapping(entries) =>
        var normalized: seq<Member> := [];
        for n := 0 to |entries|
          invariant NormalizeEntries(entries, n) == Ok(normalized)
        {
          if entries[n].key.NotText? {
            EntriesStop(entries, n + 1, |entries|);
            return Err(Unsupported);
          }
          var j := ToCanonicalPrimitive(entries[n].value);
          if j.Err? {
            EntriesStop(entries, n + 1, |entries|);
            return Err(j.error);
          }
          normalized := Put(normalized, Member(entries[n].key.s, j.value));
        }
        return Ok(Obj(normalized));
      case Sequence(items) =>
        var js: seq<Json> := [];
        for n := 0 to |items|
          invariant NormalizeItems(items, n) == Ok(js)
        {
          var j := ToCanonicalPrimitive(items[n]);
          if j.Err? {
            ItemsStop(items, n + 1, |items|);
            return Err(j.error);
          }
          js := js + [j.value];
        }
        return Ok(Arr(js));
      case _ => return Normalize(v);
    }
  }

  lemma {:induction false} EntriesStop(entries: seq<Entry>, n: nat, m: nat)
    requires n <= m <= |entries| && NormalizeEntries(entries, n).Err?
    ensures NormalizeEntries(entries, m) == NormalizeEntries(entries, n)
  {
    if n < m { EntriesStop(entries, n, m - 1); }
  }

  lemma {:induction false} ItemsStop(items: seq<Value>, n: nat, m: nat)
    requires n <= m <= |items| && NormalizeItems(items, n).Err?
    ensures NormalizeItems(items, m) == NormalizeItems(items, n)
  {
    if n < m { ItemsStop(items, n, m - 1); }
  }

  // ---- Normalized values are canonical ----

  /** Whatever is normalized prints and reads back: no float is left anywhere, and keys are in order. */
  lemma {:induction false} NormalizedIsCanonical(v: Value)
    requires Normalize(v).Ok?
    ensures Canonical(Normalize(v).value)
    decreases v, 1
  {
    hide DecimalText, FormatTimestamp;
    match v
    case Mapping(entries) => EntriesCanonical(entries, |entries|);
    case Sequence(items) => ItemsCanonical(items, |items|);
    case _ =>
  }

  lemma {:induction false} EntriesCanonical(entries: seq<Entry>, n: nat)
    requires n <= |entries| && NormalizeEntries(entries, n).Ok?
    ensures var fields := NormalizeEntries(entries, n).value;
      Ascending(fields) && forall f: Member | f in fields :: Canonical(f.value)
    decreases Mapping(entries), 0, n
  {
    hide Canonical, Ascending, Less;
    if n > 0 {
      EntriesCanonical(entries, n - 1);
      var Entry(_, value) := entries[n - 1];
      NormalizedIsCanonical(value);
      var before := NormalizeEntries(entries, n - 1).value;
      var m := Member(entries[n - 1].key.s, Normalize(entries[n - 1].value).value);
      PutAscends(before, m);
      forall f: Member | f in Put(before, m) ensures Canonical(f.value) { PutMembers(before, m, f); }
    } else {
      NoFields();
    }
  }

  lemma NoFields()
    ensures Ascending([])
  {}

  lemma {:induction false} ItemsCanonical(items: seq<Value>, n: nat)
    requires n <= |items| && NormalizeItems(items, n).Ok?
    ensures forall j | j in NormalizeItems(items, n).value :: Canonical(j)
    decreases items, 0, n
  {
    hide Canonical;
    if n > 0 {
      ItemsCanonical(items, n - 1);
      NormalizedIsCanonical(items[n - 1]);
    }
  }

  // ---- The order of assignment does not matter ----

  /** Entry `i` says `m`. */
  predicate Says(e: Entry, m: Member) {
    e.key.Name? && e.key.s == m.key && Normalize(e.value) == Ok(m.value)
  }

  predicate DistinctKeys(entries: seq<Entry>) {
    forall i, k | 0 <= i < k < |entries| :: entries[i].key != entries[k].key
  }

  lemma {:induction false} EntriesMembers(entries: seq<Entry>, n: nat, m: Member)
    requires n <= |entries| && DistinctKeys(entries) && NormalizeEntries(entries, n).Ok?
    ensures m in NormalizeEntries(entries, n).value <==> exists i :: 0 <= i < n && Says(entries[i], m)
    decreases n
  {
    hide Normalize;
    if n > 0 {
      EntriesMembers(entries, n - 1, m);
      EntriesCanonical(entries, n - 1);
      var before := NormalizeEntries(entries, n - 1).value;
      var last := Member(entries[n - 1].key.s, Normalize(entries[n - 1].value).value);
      PutMembers(before, last, m);
      if m == last { assert Says(entries[n - 1], m); }
      if exists i :: 0 <= i < n - 1 && Says(entries[i], m) {
        var i :| 0 <= i < n - 1 && Says(entries[i], m);
        assert entries[i].key != entries[n - 1].key;
      }
    }
  }

  /** Two sorted dictionaries with the same members are the same. */
  lemma {:induction false} SortedIsUnique(a: seq<Member>, b: seq<Member>)
    requires Ascending(a) && Ascending(b) && forall m: Member :: m in a <==> m in b
    ensures a == b
  {
    hide Less, Ascending;
    if a == [] {
      assert forall m: Member :: m !in b;
      NoMembers(b);
    } else {
      assert a[0] in b;
      assert b[0] in a;
      HeadsAgree(a, b);
      AscendingTail(a);
      AscendingTail(b);
      forall m: Member ensures m in a[1..] <==> m in b[1..] {
        TailMember(a, m);
        TailMember(b, m);
      }
      SortedIsUnique(a[1..], b[1..]);
      assert a == [a[0]] + a[1..] && b == [b[0]] + b[1..];
    }
  }

  lemma NoMembers(b: seq<Member>)
    ensures (forall m: Member :: m !in b) ==> b == []
  {
    if b != [] { assert b[0] in b; }
  }

  lemma HeadsAgree(a: seq<Member>, b: seq<Member>)
    requires Ascending(a) && Ascending(b) && a != [] && b != [] && a[0] in b && b[0] in a
    ensures a[0] == b[0]
  {
    hide Less, Ascending;
    assert a == [a[0]] + a[1..] && b == [b[0]] + b[1..];
    if a[0] != b[0] {
      TailAbove(a, b[0]);
      TailAbove(b, a[0]);
      LessTransitive(a[0].key, b[0].key, a[0].key);
      LessIrreflexive(a[0].key);
    }
  }

  lemma TailMember(a: seq<Member>, m: Member)
    requires Ascending(a) && a != []
    ensures m in a[1..] <==> m in a && m != a[0]
  {
    hide Less, Ascending;
    assert a == [a[0]] + a[1..];
    TailAbove(a, m);
    LessIrreflexive(m.key);
  }

  /** The same entries in any order normalize to the same value, hence hash the same. */
  lemma OrderDoesNotMatter(a: seq<Entry>, b: seq<Entry>)
    requires DistinctKeys(a) && DistinctKeys(b) && multiset(a) == multiset(b)
    requires Normalize(Mapping(a)).Ok? && Normalize(Mapping(b)).Ok?
    ensures Normalize(Mapping(a)) == Normalize(Mapping(b))
  {
    var x, y := NormalizeEntries(a, |a|).value, NormalizeEntries(b, |b|).value;
    EntriesCanonical(a, |a|);
    EntriesCanonical(b, |b|);
    forall m: Member ensures m in x <==> m in y {
      EntriesMembers(a, |a|, m);
      EntriesMembers(b, |b|, m);
      SameSayers(a, b, m);
      SameSayers(b, a, m);
    }
    SortedIsUnique(x, y);
  }

  lemma SameSayers(a: seq<Entry>, b: seq<Entry>, m: Member)
    requires multiset(a) == multiset(b)
    ensures (exists i :: 0 <= i < |a| && Says(a[i], m)) ==> exists i :: 0 <= i < |b| && Says(b[i], m)
  {
    hide Says;
    if exists i :: 0 <= i < |a| && Says(a[i], m) {
      var i :| 0 <= i < |a| && Says(a[i], m);
      assert a[i] in multiset(b);
      assert a[i] in b;
    }
  }

  // ---- What the normal form says ----

  /** Only text keys, finite decimals, and nothing binary or foreign, all the way down. */
  predicate Supported(v: Value) {
    match v
    case Binary => false
    case Foreign => false
    case Exact(d) => d.Finite?
    case Mapping(entries) => forall e: Entry | e in entries :: e.key.Name? && Supported(e.value)
    case Sequence(items) => forall x | x in items :: Supported(x)
    case _ => true
  }

  /** No mapping anywhere has a key twice, as no dictionary does. */
  predicate WellKeyed(v: Value) {
    match v
    case Mapping(entries) => DistinctKeys(entries) && forall e: Entry | e in entries :: WellKeyed(e.value)
    case Sequence(items) => forall x | x in items :: WellKeyed(x)
    case _ => true
  }

  /** The JSON says what the value says: scalars as themselves, lists item by item, mappings key by key. */
  predicate Stands(v: Value, j: Json)
    decreases v
  {
    match v
    case Nothing => j == Null
    case Flag(b) => j == Bool(b)
    case Whole(i) => j == Int(i)
    case Words(s) => j == Str(s)
    case Exact(d) =>
      d.Finite? && var s := Stripped(d.units, d.scale);
                   j == Str((if d.negative && d.units > 0 then "-" else "") + FixedPoint(s.0, s.1))
    case Moment(t) => j == Str(FormatTimestamp(t))
    case Mapping(entries) =>
      && j.Obj?
      && (forall f: Member | f in j.fields :: exists i :: 0 <= i < |entries| && entries[i].key == Name(f.key))
      && forall e: Entry | e in entries ::
           && e.key.Name?
           && exists k :: 0 <= k < |j.fields| && j.fields[k].key == e.key.s && Stands(e.value, j.fields[k].value)
    case Sequence(items) =>
      && j.Arr? && |j.items| == |items|
      && forall k | 0 <= k < |items| :: Stands(items[k], j.items[k])
    case _ => false
  }

  /** Stripping changes the digits of a decimal but not its value, and leaves no zero to strip. */
  lemma {:induction false} StrippedExactly(units: nat, scale: nat)
    ensures var s := Stripped(units, scale);
      s.1 <= scale && units == s.0 * Pow10(scale - s.1) && (s.1 > 0 ==> s.0 % 10 != 0)
    decreases scale
  {
    if scale > 0 && units % 10 == 0 {
      StrippedExactly(units / 10, scale - 1);
      var s := Stripped(units / 10, scale - 1);
      Tenfold(s.0, Pow10(scale - 1 - s.1));
    }
  }

  lemma Tenfold(a: nat, b: nat)
    ensures 10 * (a * b) == a * (10 * b)
  {}

  /** Exactly the supported values have a normal form. */
  lemma {:induction false} NormalizesExactly(v: Value)
    ensures Normalize(v).Ok? <==> Supported(v)
    decreases v, 1
  {
    hide FormatTimestamp, FixedPoint, Stripped;
    match v
    case Mapping(entries) => EntriesSupported(entries, |entries|);
    case Sequence(items) => ItemsSupported(items, |items|);
    case _ =>
  }

  lemma {:induction false} EntriesSupported(entries: seq<Entry>, n: nat)
    requires n <= |entries|
    ensures NormalizeEntries(entries, n).Ok?
       <==> forall k | 0 <= k < n :: entries[k].key.Name? && Supported(entries[k].value)
    decreases Mapping(entries), 0, n
  {
    hide Supported, Normalize;
    if n > 0 {
      EntriesSupported(entries, n - 1);
      var Entry(_, value) := entries[n - 1];
      NormalizesExactly(value);
    }
  }

  lemma {:induction false} ItemsSupported(items: seq<Value>, n: nat)
    requires n <= |items|
    ensures NormalizeItems(items, n).Ok? <==> forall k | 0 <= k < n :: Supported(items[k])
    decreases items, 0, n
  {
    hide Supported, Normalize;
    if n > 0 {
      ItemsSupported(items, n - 1);
      NormalizesExactly(items[n - 1]);
    }
  }

  /** A normal form says exactly what the value says. */
  lemma {:induction false} NormalFormStands(v: Value)
    requires WellKeyed(v) && Normalize(v).Ok?
    ensures Stands(v, Normalize(v).value)
    decreases v, 1
  {
    hide FormatTimestamp, FixedPoint, Stripped;
    match v
    case Mapping(entries) => MappingStands(entries);
    case Sequence(items) => ItemsStand(items, |items|);
    case _ =>
  }

  lemma {:induction false} ItemsStand(items: seq<Value>, n: nat)
    requires n <= |items| && NormalizeItems(items, n).Ok? && forall k | 0 <= k < n :: WellKeyed(items[k])
    ensures var js := NormalizeItems(items, n).value;
      |js| == n && forall k | 0 <= k < n :: Stands(items[k], js[k])
    decreases items, 0, n
  {
    hide Stands, Normalize, WellKeyed;
    if n > 0 {
      ItemsStand(items, n - 1);
      NormalFormStands(items[n - 1]);
    }
  }

  lemma {:induction false} MappingStands(entries: seq<Entry>)
    requires DistinctKeys(entries) && NormalizeEntries(entries, |entries|).Ok?
    requires forall e: Entry | e in entries :: WellKeyed(e.value)
    ensures Stands(Mapping(entries), Obj(NormalizeEntries(entries, |entries|).value))
    decreases Mapping(entries), 0
  {
    hide Normalize, WellKeyed;
    var fields := NormalizeEntries(entries, |entries|).value;
    EntriesNormalize(entries, |entries|);
    forall f: Member | f in fields ensures exists i :: 0 <= i < |entries| && entries[i].key == Name(f.key) {
      EntriesMembers(entries, |entries|, f);
      var i :| 0 <= i < |entries| && Says(entries[i], f);
      assert entries[i].key == Name(f.key);
    }
    forall e: Entry | e in entries
      ensures e.key.Name?
      ensures exists k :: 0 <= k < |fields| && fields[k].key == e.key.s && Stands(e.value, fields[k].value)
    {
      var i :| 0 <= i < |entries| && entries[i] == e;
      var m := Member(e.key.s, Normalize(e.value).value);
      assert Says(entries[i], m);
      EntriesMembers(entries, |entries|, m);
      NormalFormStands(e.value);
      var k :| 0 <= k < |fields| && fields[k] == m;
      assert fields[k].key == e.key.s && Stands(e.value, fields[k].value);
    }
  }

  lemma {:induction false} EntriesNormalize(entries: seq<Entry>, n: nat)
    requires n <= |entries| && NormalizeEntries(entries, n).Ok?
    ensures forall k | 0 <= k < n :: entries[k].key.Name? && Normalize(entries[k].value).Ok?
  {
    hide Normalize;
    if n > 0 { EntriesNormalize(entries, n - 1); }
  }
}
