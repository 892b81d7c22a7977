/** The transaction schema and `validateTransaction` as explicit predicates.

    The raw record is already typed: each field holds a string, a real or an
    optional value. What JavaScript's `new Date(text)` makes of the date string
    is given as `ParsedDate` (absent when the string does not parse), and the
    current instant `now` is a parameter. Every field constraint is checked
    independently and every violation is reported, in the order of the schema's
    fields and, within a field, in the order of its checks. */
module Validation {
  import opened Common

  /** The four transaction types of the schema's enum. */
  datatype Kind = Buy | Sell | Transfer | Income

  /** A date string that `new Date(...)` accepted: its instant in milliseconds
      and the calendar year `getFullYear()` reports for it. */
  datatype ParsedDate = ParsedDate(time: int, localYear: int)

  /** A record as it arrives at the validator. `fee`, `price` and `hash` may be
      absent; `date` is `None` when the date string is not a valid date. */
  datatype RawTransaction = RawTransaction(
    id: string,
    date: Option<ParsedDate>,
    kind: string,
    asset: string,
    amount: real,
    price: Option<real>,
    totalInfo: real,
    fee: Option<real>,
    source: string,
    hash: Option<string>)

  /** A validated transaction: the type is one of the enum's kinds, the date
      is an instant and a missing fee has become zero. `totalInfo` is the total
      consideration in rupees, `amount` the quantity of the asset. */
  datatype Transaction = Transaction(
    id: string,
    date: int,
    kind: Kind,
    asset: string,
    amount: real,
    price: Option<real>,
    totalInfo: real,
    fee: real,
    source: string,
    hash: Option<string>)

  /** The schema's fields, in declaration order; `FieldName` is the path zod reports. */
  datatype Field = Id | Date | Type | Asset | Amount | Price | TotalInfo | Fee | Source | Hash

  function FieldName(f: Field): string {
    match f
    case Id => "id"
    case Date => "date"
    case Type => "type"
    case Asset => "asset"
    case Amount => "amount"
    case Price => "price"
    case TotalInfo => "totalInfo"
    case Fee => "fee"
    case Source => "source"
    case Hash => "hash"
  }

  /** The schema's messages, one per kind of violation. */
  datatype Message =
    | Negative | TooLarge
    | SymbolShort | SymbolLong | SymbolChars
    | BadDate | BadUuid | BadEnum(received: string)
    | SourceShort | SourceLong

  function MessageText(m: Message): string {
    match m
    case Negative => "Value cannot be negative"
    case TooLarge => "Value exceeds realistic limits"
    case SymbolShort => "Symbol too short"
    case SymbolLong => "Symbol too long"
    case SymbolChars => "Symbol must be alphanumeric uppercase"
    case BadDate => "Invalid date or future date"
    case BadUuid => "Invalid uuid"
    // zod's enum message quotes the value it received
    case BadEnum(v) => "Invalid enum value. Expected 'BUY' | 'SELL' | 'TRANSFER' | 'INCOME', received '" + v + "'"
    case SourceShort => "String must contain at least 1 character(s)"
    case SourceLong => "String must contain at most 50 character(s)"
  }

  /** One violated constraint: the field and the schema's message. */
  datatype Issue = Issue(path: Field, message: Message)

  const MAX_AMOUNT: real := 1000000000.0
  const MIN_YEAR: int := 2009
  const MIN_SYMBOL_LENGTH: nat := 2
  const MAX_SYMBOL_LENGTH: nat := 10
  const MIN_SOURCE_LENGTH: nat := 1
  const MAX_SOURCE_LENGTH: nat := 50

  // ---------------------------------------------------------------------
  // The constraints, stated as predicates on values.
  // ---------------------------------------------------------------------

  /** A `CurrencyAmount`: between zero and one billion inclusive. */
  predicate ValidAmount(v: real) {
    0.0 <= v <= MAX_AMOUNT
  }

  predicate IsSymbolChar(c: char) {
    'A' <= c <= 'Z' || '0' <= c <= '9'
  }

  /** The first character outside the Basic Multilingual Plane. */
  const FIRST_ASTRAL: char := '\U{10000}'

  /** The length JavaScript reports for a string, which zod's `min` and `max`
      compare: UTF-16 code units, so a character outside the Basic
      Multilingual Plane counts twice. */
  function Utf16Length(s: string): (n: nat)
    ensures |s| <= n <= 2 * |s|
  {
    if |s| == 0 then 0
    else Utf16Length(s[..|s| - 1]) + (if s[|s| - 1] >= FIRST_ASTRAL then 2 else 1)
  }

  /** A string of Basic Multilingual Plane characters has one code unit per character. */
  lemma {:induction false} Utf16LengthOfBmp(s: string)
    requires forall i :: 0 <= i < |s| ==> s[i] < FIRST_ASTRAL
    ensures Utf16Length(s) == |s|
  {
    if |s| > 0 {
      Utf16LengthOfBmp(s[..|s| - 1]);
    }
  }

  /** A string of characters outside that plane has two code units per character. */
  lemma {:induction false} Utf16LengthOfAstral(s: string)
    requires forall i :: 0 <= i < |s| ==> s[i] >= FIRST_ASTRAL
    ensures Utf16Length(s) == 2 * |s|
  {
    if |s| > 0 {
      Utf16LengthOfAstral(s[..|s| - 1]);
    }
  }

  /** An `AssetSymbol`: 2 to 10 code units long, and matching `^[A-Z0-9]+$`. */
  predicate ValidSymbol(s: string) {
    && MIN_SYMBOL_LENGTH <= Utf16Length(s) <= MAX_SYMBOL_LENGTH
    && MatchesSymbolPattern(s)
  }

  /** A valid symbol is 2 to 10 upper-case letters and digits: its characters
      are single code units, so the length bounds count characters. */
  lemma ValidSymbolChars(s: string)
    ensures ValidSymbol(s) <==>
              && MIN_SYMBOL_LENGTH <= |s| <= MAX_SYMBOL_LENGTH
              && forall i :: 0 <= i < |s| ==> IsSymbolChar(s[i])
  {
    if MatchesSymbolPattern(s) {
      Utf16LengthOfBmp(s);
    }
  }

  /** A `TransactionDate`: parses, falls in 2009 or later, and is not after `now`. */
  predicate ValidDate(d: Option<ParsedDate>, now: int) {
    d.Some? && d.value.localYear >= MIN_YEAR && d.value.time <= now
  }

  predicate IsHexDigit(c: char) {
    '0' <= c <= '9' || 'a' <= c <= 'f' || 'A' <= c <= 'F'
  }

  /** The 8-4-4-4-12 hexadecimal shape zod's `uuid()` check accepts. */
  predicate IsUuid(s: string) {
    && |s| == 36
    && forall i :: 0 <= i < |s| ==>
         if i == 8 || i == 13 || i == 18 || i == 23 then s[i] == '-' else IsHexDigit(s[i])
  }

  /** The enum's spelling of each kind. */
  function KindName(k: Kind): string {
    match k
    case Buy => "BUY"
    case Sell => "SELL"
    case Transfer => "TRANSFER"
    case Income => "INCOME"
  }

  /** Reads the `type` field; anything outside the enum is rejected. */
  function ParseKind(s: string): (r: Option<Kind>)
    ensures r.Some? ==> KindName(r.value) == s
    ensures r.None? ==> forall k: Kind :: KindName(k) != s
  {
    if s == "BUY" then Some(Buy)
    else if s == "SELL" then Some(Sell)
    else if s == "TRANSFER" then Some(Transfer)
    else if s == "INCOME" then Some(Income)
    else None
  }

  /** Parsing a kind's own name gives that kind back. */
  lemma KindRoundTrip(k: Kind)
    ensures ParseKind(KindName(k)) == Some(k)
  {
  }

  /** `source`: 1 to 50 code units. */
  predicate ValidSource(s: string) {
    MIN_SOURCE_LENGTH <= Utf16Length(s) <= MAX_SOURCE_LENGTH
  }

  /** Every field constraint of the schema holds. */
  predicate IsValid(raw: RawTransaction, now: int) {
    && IsUuid(raw.id)
    && ValidDate(raw.date, now)
    && ParseKind(raw.kind).Some?
    && ValidSymbol(raw.asset)
    && ValidAmount(raw.amount)
    && (raw.price.Some? ==> ValidAmount(raw.price.value))
    && ValidAmount(raw.totalInfo)
    && (raw.fee.Some? ==> ValidAmount(raw.fee.value))
    && ValidSource(raw.source)
  }

  /** What a validated transaction is known to satisfy. */
  predicate WellFormed(t: Transaction, now: int) {
    && IsUuid(t.id)
    && t.date <= now
    && ValidSymbol(t.asset)
    && ValidAmount(t.amount)
    && (t.price.Some? ==> ValidAmount(t.price.value))
    && ValidAmount(t.totalInfo)
    && ValidAmount(t.fee)
    && ValidSource(t.source)
  }

  /** The regular expression `^[A-Z0-9]+$`. */
  predicate MatchesSymbolPattern(s: string) {
    |s| >= 1 && forall i :: 0 <= i < |s| ==> IsSymbolChar(s[i])
  }

  /** The constraint table: issue `e` describes a constraint that `raw`
      breaks. Each field has its own checks and its own messages. */
  predicate Violated(raw: RawTransaction, now: int, e: Issue) {
    match e.path
    case Id => e.message == BadUuid && !IsUuid(raw.id)
    case Date => e.message == BadDate && !ValidDate(raw.date, now)
    case Type => e.message == BadEnum(raw.kind) && ParseKind(raw.kind).None?
    case Asset =>
      || (e.message == SymbolShort && Utf16Length(raw.asset) < MIN_SYMBOL_LENGTH)
      || (e.message == SymbolLong && Utf16Length(raw.asset) > MAX_SYMBOL_LENGTH)
      || (e.message == SymbolChars && !MatchesSymbolPattern(raw.asset))
    case Amount => AmountViolated(raw.amount, e.message)
    case Price => raw.price.Some? && AmountViolated(raw.price.value, e.message)
    case TotalInfo => AmountViolated(raw.totalInfo, e.message)
    case Fee => raw.fee.Some? && AmountViolated(raw.fee.value, e.message)
    case Source =>
      || (e.message == SourceShort && Utf16Length(raw.source) < MIN_SOURCE_LENGTH)
      || (e.message == SourceLong && Utf16Length(raw.source) > MAX_SOURCE_LENGTH)
    case Hash => false
  }

  /** The two bounds of a `CurrencyAmount`. */
  predicate AmountViolated(v: real, m: Message) {
    (m == Negative && v < 0.0) || (m == TooLarge && v > MAX_AMOUNT)
  }

  // ---------------------------------------------------------------------
  // The checks, each reporting the issues of one field in check order.
  // ---------------------------------------------------------------------

  /** `CurrencyAmount` on one field: minimum, then maximum. The refinement
      rejecting NaN and infinities never fires on a real number. */
  function AmountIssues(path: Field, v: real): (r: seq<Issue>)
    ensures forall e :: e in r <==> e.path == path && AmountViolated(v, e.message)
    ensures r == [] <==> ValidAmount(v)
  {
    (if v < 0.0 then [Issue(path, Negative)] else [])
    + (if v > MAX_AMOUNT then [Issue(path, TooLarge)] else [])
  }

  /** No issue occurs twice. */
  predicate Distinct(es: seq<Issue>) {
    forall i, j :: 0 <= i < j < |es| ==> es[i] != es[j]
  }

  /** The issues of field `f` of `raw`. */
  function FieldIssues(raw: RawTransaction, now: int, f: Field): (r: seq<Issue>)
    ensures forall e :: e in r <==> e.path == f && Violated(raw, now, e)
  {
    match f
    case Id => if IsUuid(raw.id) then [] else [Issue(Id, BadUuid)]
    case Date => if ValidDate(raw.date, now) then [] else [Issue(Date, BadDate)]
    case Type => if ParseKind(raw.kind).Some? then [] else [Issue(Type, BadEnum(raw.kind))]
    case Asset =>
      (if Utf16Length(raw.asset) < MIN_SYMBOL_LENGTH then [Issue(Asset, SymbolShort)] else [])
      + (if Utf16Length(raw.asset) > MAX_SYMBOL_LENGTH then [Issue(Asset, SymbolLong)] else [])
      + (if !MatchesSymbolPattern(raw.asset) then [Issue(Asset, SymbolChars)] else [])
    case Amount => AmountIssues(Amount, raw.amount)
    // optional: an absent price passes
    case Price => if raw.price.Some? then AmountIssues(Price, raw.price.value) else []
    case TotalInfo => AmountIssues(TotalInfo, raw.totalInfo)
    // `.default(0)`: an absent fee becomes 0, which passes
    case Fee => if raw.fee.Some? then AmountIssues(Fee, raw.fee.value) else []
    case Source =>
      (if Utf16Length(raw.source) < MIN_SOURCE_LENGTH then [Issue(Source, SourceShort)] else [])
      + (if Utf16Length(raw.source) > MAX_SOURCE_LENGTH then [Issue(Source, SourceLong)] else [])
    // optional string: always accepted
    case Hash => []
  }

  /** The number of fields of the schema. */
  const FIELD_COUNT: nat := 10

  /** The field at position `k` of the schema. */
  function FieldAt(k: nat): (f: Field)
    requires k < FIELD_COUNT
    ensures FieldIndex(f) == k
  {
    [Id, Date, Type, Asset, Amount, Price, TotalInfo, Fee, Source, Hash][k]
  }

  /** The issues of the first `n` fields of the schema, in order. */
  function IssuesUpTo(raw: RawTransaction, now: int, n: nat): (r: seq<Issue>)
    requires n <= FIELD_COUNT
    ensures forall e :: e in r <==> FieldIndex(e.path) < n && Violated(raw, now, e)
    ensures Distinct(r) && InFieldOrder(r)
  {
    if n == 0 then []
    else
      var prev := IssuesUpTo(raw, now, n - 1);
      var f := FieldAt(n - 1);
      FieldIssuesDistinct(raw, now, f);
      FieldIndexInjective(f);
      DistinctAppend(prev, FieldIssues(raw, now, f), n - 1);
      prev + FieldIssues(raw, now, f)
  }

  /** All issues of one record, field by field in schema order: exactly the
      violated constraints, each once, and none at all exactly when the record
      is valid. */
  function Issues(raw: RawTransaction, now: int): (r: seq<Issue>)
    ensures forall e :: e in r <==> Violated(raw, now, e)
    ensures r == [] <==> IsValid(raw, now)
    // each violated constraint is reported once, in the order of the schema's fields
    ensures Distinct(r) && InFieldOrder(r)
  {
    var r := IssuesUpTo(raw, now, FIELD_COUNT);
    assert r == [] <==> IsValid(raw, now) by {
      ValidIffNoViolation(raw, now);
      if r != [] {
        assert Violated(raw, now, r[0]);
      }
    }
    r
  }

  /** Issues appear in the order of their fields in the schema. */
  predicate InFieldOrder(es: seq<Issue>) {
    forall i, j :: 0 <= i < j < |es| ==> FieldIndex(es[i].path) <= FieldIndex(es[j].path)
  }

  /** Issues of the field at position `n` only, none repeated. */
  predicate OfField(b: seq<Issue>, n: nat) {
    Distinct(b) && forall e :: e in b ==> FieldIndex(e.path) == n
  }

  /** Within one field no issue is reported twice: each check has its own message. */
  lemma FieldIssuesDistinct(raw: RawTransaction, now: int, f: Field)
    ensures OfField(FieldIssues(raw, now, f), FieldIndex(f))
  {
    var r := FieldIssues(raw, now, f);
    forall i, j | 0 <= i < j < |r| ensures r[i] != r[j] {
      assert r[i].message != r[j].message;
    }
  }

  /** The position of a field in the schema. */
  function FieldIndex(f: Field): (k: nat)
    ensures k < FIELD_COUNT
  {
    match f
    case Id => 0
    case Date => 1
    case Type => 2
    case Asset => 3
    case Amount => 4
    case Price => 5
    case TotalInfo => 6
    case Fee => 7
    case Source => 8
    case Hash => 9
  }

  /** Each position holds one field. */
  lemma FieldIndexInjective(f: Field)
    ensures forall g :: FieldIndex(g) == FieldIndex(f) ==> g == f
  {
  }

  /** Appending the issues of a later field keeps the list free of repeats,
      since issues of different fields differ in their path. */
  lemma DistinctAppend(a: seq<Issue>, b: seq<Issue>, n: nat)
    requires Distinct(a) && InFieldOrder(a) && OfField(b, n)
    requires forall e :: e in a ==> FieldIndex(e.path) < n
    ensures Distinct(a + b) && InFieldOrder(a + b)
    ensures forall e :: e in a + b ==> FieldIndex(e.path) < n + 1
  {
    assert forall e :: e in b ==> FieldIndex(e.path) == n;
    forall i, j | 0 <= i < j < |a + b|
      ensures (a + b)[i] != (a + b)[j]
      ensures FieldIndex((a + b)[i].path) <= FieldIndex((a + b)[j].path)
    {
      if i < |a| && |a| <= j {
        assert (a + b)[i] in a && (a + b)[j] in b;
      } else if |a| <= i {
        assert (a + b)[i] in b && (a + b)[j] in b;
      }
    }
  }

  /** A record is valid exactly when no constraint of the table is violated. */
  lemma ValidIffNoViolation(raw: RawTransaction, now: int)
    ensures IsValid(raw, now) <==> forall e :: !Violated(raw, now, e)
  {
    if !IsValid(raw, now) {
      if !IsUuid(raw.id) { assert Violated(raw, now, Issue(Id, BadUuid)); }
      else if !ValidDate(raw.date, now) { assert Violated(raw, now, Issue(Date, BadDate)); }
      else if ParseKind(raw.kind).None? { assert Violated(raw, now, Issue(Type, BadEnum(raw.kind))); }
      else if !ValidSymbol(raw.asset) {
        if Utf16Length(raw.asset) < MIN_SYMBOL_LENGTH { assert Violated(raw, now, Issue(Asset, SymbolShort)); }
        else if Utf16Length(raw.asset) > MAX_SYMBOL_LENGTH { assert Violated(raw, now, Issue(Asset, SymbolLong)); }
        else { assert Violated(raw, now, Issue(Asset, SymbolChars)); }
      }
      else if !ValidAmount(raw.amount) { AmountWitness(raw, now, Amount, raw.amount); }
      else if raw.price.Some? && !ValidAmount(raw.price.value) { AmountWitness(raw, now, Price, raw.price.value); }
      else if !ValidAmount(raw.totalInfo) { AmountWitness(raw, now, TotalInfo, raw.totalInfo); }
      else if raw.fee.Some? && !ValidAmount(raw.fee.value) { AmountWitness(raw, now, Fee, raw.fee.value); }
      else {
        if Utf16Length(raw.source) < MIN_SOURCE_LENGTH { assert Violated(raw, now, Issue(Source, SourceShort)); }
        else { assert Violated(raw, now, Issue(Source, SourceLong)); }
      }
    }
  }

  /** An out-of-range amount in a numeric field is reported. */
  lemma AmountWitness(raw: RawTransaction, now: int, f: Field, v: real)
    requires f in {Amount, Price, TotalInfo, Fee}
    requires f == Amount ==> v == raw.amount
    requires f == Price ==> raw.price == Some(v)
    requires f == TotalInfo ==> v == raw.totalInfo
    requires f == Fee ==> raw.fee == Some(v)
    requires !ValidAmount(v)
    ensures exists e :: Violated(raw, now, e)
  {
    if v < 0.0 { assert Violated(raw, now, Issue(f, Negative)); }
    else { assert Violated(raw, now, Issue(f, TooLarge)); }
  }

  /** `${e.path}: ${e.message}` */
  function Render(e: Issue): string {
    FieldName(e.path) + ": " + MessageText(e.message)
  }

  function RenderAll(es: seq<Issue>): (r: seq<string>)
    ensures |r| == |es|
    ensures forall i :: 0 <= i < |es| ==> r[i] == Render(es[i])
  {
    if |es| == 0 then [] else [Render(es[0])] + RenderAll(es[1..])
  }

  /** `parts.join(", ")` */
  function Join(parts: seq<string>): string {
    if |parts| == 0 then ""
    else if |parts| == 1 then parts[0]
    else parts[0] + ", " + Join(parts[1..])
  }

  /** `validateTransaction`: the validated data when every constraint holds,
      otherwise the joined description of every violation. */
  function ValidateTransaction(raw: RawTransaction, now: int): (r: Result<Transaction, string>)
    ensures r.Success? <==> IsValid(raw, now)
    ensures r.Success? ==> WellFormed(r.value, now)
    ensures r.Success? ==> && r.value.id == raw.id
                           && raw.date == Some(ParsedDate(r.value.date, raw.date.value.localYear))
                           && KindName(r.value.kind) == raw.kind
                           && r.value.asset == raw.asset
                           && r.value.amount == raw.amount
                           && r.value.price == raw.price
                           && r.value.totalInfo == raw.totalInfo
                           && r.value.source == raw.source
                           && r.value.hash == raw.hash
    ensures r.Success? ==> r.value.fee == (if raw.fee.Some? then raw.fee.value else 0.0)
  {
    var issues := Issues(raw, now);
    if issues == [] then
      Success(Transaction(
        raw.id, raw.date.value.time, ParseKind(raw.kind).value, raw.asset, raw.amount,
        raw.price, raw.totalInfo, if raw.fee.Some? then raw.fee.value else 0.0,
        raw.source, raw.hash))
    else
      Failure(Join(RenderAll(issues)))
  }

  /** `a` occurs in `b` at offset `k`. */
  predicate OccursAt(a: string, b: string, k: nat) {
    k + |a| <= |b| && b[k..k + |a|] == a
  }

  /** Each part occurs in the joined text. */
  lemma {:induction false} JoinContains(parts: seq<string>, i: nat) returns (k: nat)
    requires i < |parts|
    ensures OccursAt(parts[i], Join(parts), k)
    decreases |parts|
  {
    if |parts| == 1 {
      k := 0;
      assert Join(parts)[0..|parts[0]|] == parts[0];
    } else {
      var prefix := parts[0] + ", ";
      var rest := Join(parts[1..]);
      assert Join(parts) == prefix + rest;
      if i == 0 {
        k := 0;
        assert (prefix + rest)[..|parts[0]|] == parts[0];
      } else {
        var j := JoinContains(parts[1..], i - 1);
        k := |prefix| + j;
        assert (prefix + rest)[k..k + |parts[i]|] == rest[j..j + |parts[i]|];
      }
    }
  }

  /** A rejected record's error text names every violated constraint as
      `path: message`: for every issue `e` the record violates, `Render(e)`
      occurs in the error at offset `k`. */
  lemma ErrorNamesEveryViolation(raw: RawTransaction, now: int, e: Issue) returns (k: nat)
    requires Violated(raw, now, e)
    ensures ValidateTransaction(raw, now).Failure?
    ensures OccursAt(Render(e), ValidateTransaction(raw, now).error, k)
  {
    var issues := Issues(raw, now);
    var i :| 0 <= i < |issues| && issues[i] == e;
    k := JoinContains(RenderAll(issues), i);
  }

  /** Lengths are counted in code units: a source of more than 25 characters
      outside the Basic Multilingual Plane exceeds 50 units and is rejected,
      though it holds fewer than 50 characters. */
  lemma AstralSourceTooLong(raw: RawTransaction, now: int)
    requires |raw.source| > 25
    requires forall i :: 0 <= i < |raw.source| ==> raw.source[i] >= FIRST_ASTRAL
    ensures Issue(Source, SourceLong) in Issues(raw, now)
    ensures ValidateTransaction(raw, now).Failure?
  {
    Utf16LengthOfAstral(raw.source);
    assert Violated(raw, now, Issue(Source, SourceLong));
  }

  /** A single character outside the Basic Multilingual Plane is two code
      units, long enough for a symbol: only the pattern check fails. */
  lemma AstralSymbolFailsOnlyPattern(raw: RawTransaction, now: int)
    requires |raw.asset| == 1 && raw.asset[0] >= FIRST_ASTRAL
    ensures FieldIssues(raw, now, Asset) == [Issue(Asset, SymbolChars)]
  {
    assert raw.asset[..0] == [];
    assert Utf16Length(raw.asset) == 2;
  }
}
