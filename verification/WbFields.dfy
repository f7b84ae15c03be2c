/**
 Stream entries of the write-behind pipeline, the session_events row each side computes from them,
 and the field lists that carry an event through the dead-letter queue.
 */
module WbFields {
  import opened Options

  type Fields = seq<(string, string)>

  /** One Redis stream entry: its id and its field list, in order, duplicates kept. */
  datatype Entry = Entry(id: string, fields: Fields)

  /** A row of session_events; an empty uuid column stands for SQL null. */
  datatype Row = Row(kind: string, ts: int, user: string, session: string, room: string, payload: map<string, string>)

  const ORIG := "orig_event_id"
  const ERR := "error"
  const RETRY := "retry_count"
  const RESERVED: set<string> := {ORIG, ERR, RETRY}
  const UUID_FIELDS: set<string> := {"user_id", "session_id", "room_id"}

  // ---------------------------------------------------------------------------
  // Field lists as maps
  // ---------------------------------------------------------------------------

  /** Assignment into a map in list order: the last value of a name stays. */
  function LastWins(f: Fields): (m: map<string, string>) {
    if f == [] then map[] else LastWins(f[..|f| - 1])[f[|f| - 1].0 := f[|f| - 1].1]
  }

  /** `emplace` into a map in list order: the first value of a name stays. */
  function FirstWins(f: Fields): (m: map<string, string>) {
    if f == [] then map[] else
      var m := FirstWins(f[..|f| - 1]);
      if f[|f| - 1].0 in m then m else m[f[|f| - 1].0 := f[|f| - 1].1]
  }

  /** What replay keeps of a field list: first values, without the queue's own bookkeeping names. */
  function Visible(f: Fields): map<string, string> {
    FirstWins(f) - RESERVED
  }

  function GetOr(m: map<string, string>, name: string, default: string): string {
    if name in m then m[name] else default
  }

  /** The field list without every field of one name. */
  function Without(f: Fields, name: string): (r: Fields)
    ensures forall i | 0 <= i < |r| :: r[i].0 != name
  {
    if f == [] then [] else
      Without(f[..|f| - 1], name) + (if f[|f| - 1].0 == name then [] else [f[|f| - 1]])
  }

  predicate FirstAt(f: Fields, i: int) {
    0 <= i < |f| && forall k | 0 <= k < i :: f[k].0 != f[i].0
  }

  predicate LastAt(f: Fields, i: int) {
    0 <= i < |f| && forall k | i < k < |f| :: f[k].0 != f[i].0
  }

  lemma {:induction false} FirstWinsAt(f: Fields, i: int)
    requires FirstAt(f, i)
    ensures f[i].0 in FirstWins(f) && FirstWins(f)[f[i].0] == f[i].1
  {
    var g := f[..|f| - 1];
    FirstWinsKeys(g);
    if i < |f| - 1 {
      assert FirstAt(g, i);
      FirstWinsAt(g, i);
    } else {
      assert forall k | 0 <= k < |g| :: g[k] == f[k];
    }
  }

  lemma {:induction false} LastWinsAt(f: Fields, i: int)
    requires LastAt(f, i)
    ensures f[i].0 in LastWins(f) && LastWins(f)[f[i].0] == f[i].1
  {
    if i < |f| - 1 {
      var g := f[..|f| - 1];
      assert forall k | 0 <= k < |g| :: g[k] == f[k];
      assert LastAt(g, i);
      LastWinsAt(g, i);
    }
  }

  lemma {:induction false} FirstWinsKeys(f: Fields)
    ensures forall k :: k in FirstWins(f) ==> exists i :: FirstAt(f, i) && f[i].0 == k
    ensures forall i | 0 <= i < |f| :: f[i].0 in FirstWins(f)
  {
    if f != [] {
      var g := f[..|f| - 1];
      FirstWinsKeys(g);
      forall k | k in FirstWins(f) ensures exists i :: FirstAt(f, i) && f[i].0 == k {
        if k in FirstWins(g) {
          var i :| FirstAt(g, i) && g[i].0 == k;
          assert FirstAt(f, i);
        } else {
          assert forall j | 0 <= j < |g| :: g[j] == f[j] && g[j].0 in FirstWins(g);
          assert FirstAt(f, |f| - 1);
        }
      }
      forall i | 0 <= i < |f| ensures f[i].0 in FirstWins(f) {
        if i < |g| { assert g[i] == f[i]; }
      }
    }
  }

  lemma {:induction false} LastWinsKeys(f: Fields)
    ensures LastWins(f).Keys == FirstWins(f).Keys
    ensures forall k :: k in LastWins(f) ==> exists i :: LastAt(f, i) && f[i].0 == k
  {
    if f != [] {
      var g := f[..|f| - 1];
      LastWinsKeys(g);
      forall k | k in LastWins(f) ensures exists i :: LastAt(f, i) && f[i].0 == k {
        if k == f[|f| - 1].0 {
          assert LastAt(f, |f| - 1);
        } else {
          var i :| LastAt(g, i) && g[i].0 == k;
          assert LastAt(f, i);
        }
      }
    }
  }

  lemma {:induction false} FirstWinsConcat(a: Fields, b: Fields)
    ensures FirstWins(a + b) == FirstWins(b) + FirstWins(a)
  {
    if b == [] {
      assert a + b == a;
    } else {
      var c := b[..|b| - 1];
      assert (a + b)[..|a + b| - 1] == a + c;
      FirstWinsConcat(a, c);
    }
  }

  lemma {:induction false} FirstWinsWithout(f: Fields, name: string)
    ensures FirstWins(Without(f, name)) == FirstWins(f) - {name}
  {
    if f != [] {
      var g := f[..|f| - 1];
      FirstWinsWithout(g, name);
      if f[|f| - 1].0 != name {
        var w := Without(f, name);
        assert w[..|w| - 1] == Without(g, name);
      } else {
        assert Without(f, name) == Without(g, name);
      }
    }
  }

  // ---------------------------------------------------------------------------
  // Decimal text: std::to_string, std::stoi and std::stoll
  // ---------------------------------------------------------------------------

  const INT_MIN := -0x8000_0000
  const INT_MAX := 0x7FFF_FFFF
  const LL_MIN := -0x8000_0000_0000_0000
  const LL_MAX := 0x7FFF_FFFF_FFFF_FFFF

  predicate IsDigit(c: char) { '0' <= c <= '9' }

  predicate IsSpace(c: char) { c == ' ' || 9 <= c as int <= 13 }

  function NatText(n: nat): (s: string)
    ensures s != [] && forall i | 0 <= i < |s| :: IsDigit(s[i])
  {
    (if n < 10 then [] else NatText(n / 10)) + [(n % 10 + 48) as char]
  }

  function IntText(n: int): string {
    if n < 0 then "-" + NatText(-n) else NatText(n)
  }

  function NatValue(s: string): nat
    requires forall i | 0 <= i < |s| :: IsDigit(s[i])
  {
    if s == [] then 0 else
      assert IsDigit(s[|s| - 1]);
      10 * NatValue(s[..|s| - 1]) + (s[|s| - 1] as int - '0' as int)
  }

  function DigitPrefix(s: string): (r: string)
    ensures forall i | 0 <= i < |r| :: IsDigit(r[i])
  {
    if s == [] || !IsDigit(s[0]) then [] else [s[0]] + DigitPrefix(s[1..])
  }

  function SkipSpaces(s: string): string {
    if s != [] && IsSpace(s[0]) then SkipSpaces(s[1..]) else s
  }

  /** std::stoi and std::stoll: blanks, an optional sign, the longest run of digits; None where they throw. */
  function ParseInteger(s: string, lo: int, hi: int): (r: Option<int>)
    ensures r.Some? ==> lo <= r.value <= hi
  {
    var t := SkipSpaces(s);
    var negative := t != [] && t[0] == '-';
    var digits := DigitPrefix(if t != [] && (t[0] == '-' || t[0] == '+') then t[1..] else t);
    var v := if negative then -(NatValue(digits) as int) else NatValue(digits);
    if digits == [] || v < lo || v > hi then None else Some(v)
  }

  lemma {:induction false} NatTextValue(n: nat)
    ensures NatValue(NatText(n)) == n
  {
    var s := NatText(n);
    if n >= 10 {
      NatTextValue(n / 10);
      assert s[..|s| - 1] == NatText(n / 10);
    }
  }

  lemma {:induction false} DigitPrefixAll(s: string)
    requires forall i | 0 <= i < |s| :: IsDigit(s[i])
    ensures DigitPrefix(s) == s
  {
    if s != [] { DigitPrefixAll(s[1..]); }
  }

  lemma NatReads(n: nat, lo: int, hi: int)
    requires lo <= n <= hi
    ensures ParseInteger(NatText(n), lo, hi) == Some(n)
  {
    hide NatText, NatValue, DigitPrefix;
    NatTextValue(n);
    DigitPrefixAll(NatText(n));
    assert IsDigit(NatText(n)[0]);
  }

  lemma NegativeReads(n: int, lo: int, hi: int)
    requires lo <= n <= hi && n < 0
    ensures ParseInteger("-" + NatText(-n), lo, hi) == Some(n)
  {
    hide NatText, NatValue, DigitPrefix;
    NatTextValue(-n);
    DigitPrefixAll(NatText(-n));
    var s := "-" + NatText(-n);
    assert s[0] == '-' && s[1..] == NatText(-n);
  }

  /** Writing a number and reading it back returns it, whenever it is in the reader's range. */
  lemma IntTextRoundTrip(n: int, lo: int, hi: int)
    requires lo <= n <= hi
    ensures ParseInteger(IntText(n), lo, hi) == Some(n)
  {
    hide NatText, ParseInteger;
    if n < 0 { NegativeReads(n, lo, hi); } else { NatReads(n, lo, hi); }
  }

  predicate AllBlank(s: string) { forall i | 0 <= i < |s| :: IsSpace(s[i]) }

  predicate AllDigits(s: string) { forall i | 0 <= i < |s| :: IsDigit(s[i]) }

  predicate IsSign(s: string) { s == "" || s == "-" || s == "+" }

  /** The text is blanks, an optional sign, all the digits there, and anything else behind them. */
  ghost predicate ReadsAs(s: string, blanks: string, sign: string, digits: string, rest: string) {
    && s == blanks + sign + digits + rest && AllBlank(blanks) && IsSign(sign)
    && digits != "" && AllDigits(digits) && (rest != "" ==> !IsDigit(rest[0]))
  }

  function Signed(sign: string, digits: string): int
    requires AllDigits(digits)
  {
    if sign == "-" then -(NatValue(digits) as int) else NatValue(digits)
  }

  /** The number that the front of the text denotes. */
  ghost predicate Denotes(s: string, v: int) {
    exists blanks, sign, digits, rest :: ReadsAs(s, blanks, sign, digits, rest) && v == Signed(sign, digits)
  }

  lemma {:induction false} SkipsBlanks(blanks: string, rest: string)
    requires AllBlank(blanks) && (rest != "" ==> !IsSpace(rest[0]))
    ensures SkipSpaces(blanks + rest) == rest
  {
    if blanks == "" {
      assert blanks + rest == rest;
    } else {
      assert (blanks + rest)[1..] == blanks[1..] + rest;
      SkipsBlanks(blanks[1..], rest);
    }
  }

  lemma {:induction false} TakesDigits(digits: string, rest: string)
    requires AllDigits(digits) && (rest != "" ==> !IsDigit(rest[0]))
    ensures DigitPrefix(digits + rest) == digits
  {
    if digits == "" {
      assert digits + rest == rest;
    } else {
      assert (digits + rest)[1..] == digits[1..] + rest;
      TakesDigits(digits[1..], rest);
    }
  }

  lemma {:induction false} BlanksSplit(s: string) returns (blanks: string)
    ensures AllBlank(blanks) && s == blanks + SkipSpaces(s)
  {
    blanks := "";
    if s != "" && IsSpace(s[0]) {
      var more := BlanksSplit(s[1..]);
      blanks := [s[0]] + more;
    }
  }

  lemma {:induction false} DigitsSplit(s: string) returns (rest: string)
    ensures s == DigitPrefix(s) + rest && (rest != "" ==> !IsDigit(rest[0]))
  {
    rest := s;
    if s != "" && IsDigit(s[0]) { rest := DigitsSplit(s[1..]); }
  }

  lemma ReadsOneWay(s: string, blanks: string, sign: string, digits: string, rest: string, lo: int, hi: int)
    requires ReadsAs(s, blanks, sign, digits, rest)
    ensures var v := Signed(sign, digits); ParseInteger(s, lo, hi) == if lo <= v <= hi then Some(v) else None
  {
    hide NatValue, SkipSpaces, DigitPrefix;
    var t := sign + digits + rest;
    assert s == blanks + t && IsDigit(digits[0]);
    SkipsBlanks(blanks, t);
    TakesDigits(digits, rest);
    if sign == "" {
      assert t == digits + rest;
    } else {
      assert t[1..] == digits + rest;
    }
  }

  lemma SplitText(s: string) returns (blanks: string, sign: string, body: string, rest: string)
    ensures AllBlank(blanks) && s == blanks + sign + DigitPrefix(body) + rest && (rest != "" ==> !IsDigit(rest[0]))
    ensures var t := SkipSpaces(s);
            if t != [] && (t[0] == '-' || t[0] == '+') then sign == [t[0]] && body == t[1..]
            else sign == "" && body == t
  {
    hide SkipSpaces, DigitPrefix;
    var t := SkipSpaces(s);
    blanks := BlanksSplit(s);
    sign, body := "", t;
    if t != [] && (t[0] == '-' || t[0] == '+') { sign, body := [t[0]], t[1..]; }
    rest := DigitsSplit(body);
    assert t == sign + body;
    assert blanks + (sign + (DigitPrefix(body) + rest)) == blanks + sign + DigitPrefix(body) + rest;
  }

  lemma ReadDenotes(s: string, lo: int, hi: int, v: int)
    requires ParseInteger(s, lo, hi) == Some(v)
    ensures Denotes(s, v)
  {
    hide NatValue, SkipSpaces, DigitPrefix;
    var blanks, sign, body, rest := SplitText(s);
    var digits := DigitPrefix(body);
    assert ReadsAs(s, blanks, sign, digits, rest);
    assert v == Signed(sign, digits);
  }

  /** Exactly which texts are read, and as what. */
  lemma ParsesExactly(s: string, lo: int, hi: int, v: int)
    ensures ParseInteger(s, lo, hi) == Some(v) <==> Denotes(s, v) && lo <= v <= hi
  {
    hide NatValue, ParseInteger, Signed;
    if ParseInteger(s, lo, hi) == Some(v) { ReadDenotes(s, lo, hi, v); }
    if Denotes(s, v) {
      var blanks, sign, digits, rest :| ReadsAs(s, blanks, sign, digits, rest) && v == Signed(sign, digits);
      ReadsOneWay(s, blanks, sign, digits, rest, lo, hi);
    }
  }

  // ---------------------------------------------------------------------------
  // UUID text
  // ---------------------------------------------------------------------------

  predicate IsHex(c: char) { '0' <= c <= '9' || 'a' <= c <= 'f' || 'A' <= c <= 'F' }

  predicate IsUuidText(s: string) {
    |s| == 36 && forall i | 0 <= i < 36 :: if i in {8, 13, 18, 23} then s[i] == '-' else IsHex(s[i])
  }

  method IsUuid(s: string) returns (b: bool)
    ensures b <==> IsUuidText(s)
  {
    if |s| != 36 { return false; }
    var dashes := [8, 13, 18, 23];
    assert dashes[0] == 8 && dashes[1] == 13 && dashes[2] == 18 && dashes[3] == 23;
    var i, j := 0, 0;
    while i < 36
      invariant 0 <= i <= 36 && 0 <= j <= 4
      invariant forall k | 0 <= k < 4 :: dashes[k] < i <==> k < j
      invariant forall k | 0 <= k < i :: if k in {8, 13, 18, 23} then s[k] == '-' else IsHex(s[k])
    {
      if j < 4 && i == dashes[j] {
        if s[i] != '-' { return false; }
        j := j + 1;
      } else if !IsHex(s[i]) {
        return false;
      }
      i := i + 1;
    }
    return true;
  }

  function NormalizeUuid(s: string): string {
    if IsUuidText(s) then s else ""
  }

  // ---------------------------------------------------------------------------
  // The row each side writes
  // ---------------------------------------------------------------------------

  function Timestamp(m: map<string, string>): int {
    var v := ParseInteger(GetOr(m, "ts_ms", "0"), LL_MIN, LL_MAX);
    if v.Some? then v.value else 0
  }

  /** The row the worker inserts for a stream entry. */
  function WorkerRow(f: Fields): Row {
    var m := LastWins(f);
    Row(GetOr(m, "type", "unknown"), Timestamp(m),
        NormalizeUuid(GetOr(m, "user_id", "")), NormalizeUuid(GetOr(m, "session_id", "")),
        NormalizeUuid(GetOr(m, "room_id", "")), m)
  }

  /** The row the replayer inserts for a dead-letter entry: it neither normalizes uuids nor keeps reserved names. */
  function ReplayRow(f: Fields): Row {
    var m := FirstWins(f);
    Row(GetOr(m, "type", "unknown"), Timestamp(m), GetOr(m, "user_id", ""), GetOr(m, "session_id", ""),
        GetOr(m, "room_id", ""), m - RESERVED)
  }

  predicate Absent(f: Fields, name: string) { forall i | 0 <= i < |f| :: f[i].0 != name }

  /** What a timestamp field means: the number it denotes, if that is a 64-bit one, and zero otherwise. */
  ghost predicate IsTimestamp(text: string, ts: int) {
    if exists v | LL_MIN <= v <= LL_MAX :: Denotes(text, v) then LL_MIN <= ts <= LL_MAX && Denotes(text, ts)
    else ts == 0
  }

  lemma TimestampMeans(m: map<string, string>)
    ensures "ts_ms" in m ==> IsTimestamp(m["ts_ms"], Timestamp(m))
    ensures "ts_ms" !in m ==> Timestamp(m) == 0
  {
    hide ParseInteger, NatText, Denotes;
    if "ts_ms" in m {
      var text := m["ts_ms"];
      forall v | LL_MIN <= v <= LL_MAX ensures ParseInteger(text, LL_MIN, LL_MAX) == Some(v) <==> Denotes(text, v) {
        ParsesExactly(text, LL_MIN, LL_MAX, v);
      }
    } else {
      ZeroText();
      IntTextRoundTrip(0, LL_MIN, LL_MAX);
    }
  }

  lemma ZeroText()
    ensures IntText(0) == "0"
  {
  }

  /** A number's own text denotes it, so a written timestamp is the one stored. */
  lemma WrittenTimestamp(n: int)
    requires LL_MIN <= n <= LL_MAX
    ensures forall ts :: IsTimestamp(IntText(n), ts) ==> ts == n
  {
    hide ParseInteger, IntText, Denotes;
    IntTextRoundTrip(n, LL_MIN, LL_MAX);
    forall v | LL_MIN <= v <= LL_MAX ensures Denotes(IntText(n), v) <==> v == n {
      ParsesExactly(IntText(n), LL_MIN, LL_MAX, v);
    }
    assert Denotes(IntText(n), n);
  }

  /** The last value of the name decides, column by column; missing columns have their defaults. */
  lemma WorkerColumns(f: Fields, i: int)
    requires LastAt(f, i)
    ensures var r, (name, value) := WorkerRow(f), f[i];
            && (name == "type" ==> r.kind == value)
            && (name == "ts_ms" ==> IsTimestamp(value, r.ts))
            && (name == "user_id" ==> r.user == if IsUuidText(value) then value else "")
            && (name == "session_id" ==> r.session == if IsUuidText(value) then value else "")
            && (name == "room_id" ==> r.room == if IsUuidText(value) then value else "")
            && name in r.payload && r.payload[name] == value
  {
    hide LastWins, Timestamp, IsUuidText, IsTimestamp;
    LastWinsAt(f, i);
    TimestampMeans(LastWins(f));
  }

  lemma WorkerDefaults(f: Fields)
    ensures var r := WorkerRow(f);
            && (Absent(f, "type") ==> r.kind == "unknown") && (Absent(f, "ts_ms") ==> r.ts == 0)
            && (Absent(f, "user_id") ==> r.user == "") && (Absent(f, "session_id") ==> r.session == "")
            && (Absent(f, "room_id") ==> r.room == "")
            && forall name :: Absent(f, name) ==> name !in r.payload
  {
    hide LastWins, FirstWins, Timestamp, IsUuidText;
    LastWinsKeys(f);
    TimestampMeans(LastWins(f));
    UuidEmpty();
    forall name | Absent(f, name) ensures name !in LastWins(f) {}
  }

  lemma UuidEmpty()
    ensures !IsUuidText("")
  {
  }

  /** For a replay the first value of the name decides; names the queue uses itself stay out of the payload. */
  lemma ReplayColumns(f: Fields, i: int)
    requires FirstAt(f, i)
    ensures var r, (name, value) := ReplayRow(f), f[i];
            && (name == "type" ==> r.kind == value) && (name == "ts_ms" ==> IsTimestamp(value, r.ts))
            && (name == "user_id" ==> r.user == value) && (name == "session_id" ==> r.session == value)
            && (name == "room_id" ==> r.room == value)
            && (name in r.payload <==> name !in RESERVED) && (name in r.payload ==> r.payload[name] == value)
  {
    hide FirstWins, Timestamp, IsTimestamp;
    FirstWinsAt(f, i);
    TimestampMeans(FirstWins(f));
  }

  lemma ReplayDefaults(f: Fields)
    ensures var r := ReplayRow(f);
            && (Absent(f, "type") ==> r.kind == "unknown") && (Absent(f, "ts_ms") ==> r.ts == 0)
            && (Absent(f, "user_id") ==> r.user == "") && (Absent(f, "session_id") ==> r.session == "")
            && (Absent(f, "room_id") ==> r.room == "")
            && forall name :: Absent(f, name) ==> name !in r.payload
  {
    hide FirstWins, Timestamp;
    FirstWinsKeys(f);
    TimestampMeans(FirstWins(f));
    forall name | Absent(f, name) ensures name !in FirstWins(f) {}
  }

  /** The event id and the retry count are those of the first field of their name; a count that is no int is zero. */
  lemma QueueFieldsMean(f: Fields, i: int, entryId: string)
    requires FirstAt(f, i)
    ensures f[i].0 == ORIG ==> OrigId(f, entryId) == f[i].1
    ensures f[i].0 == RETRY ==>
              if exists v | INT_MIN <= v <= INT_MAX :: Denotes(f[i].1, v) then Denotes(f[i].1, RetryCount(f))
              else RetryCount(f) == 0
  {
    hide FirstWins, ParseInteger, Denotes;
    FirstWinsAt(f, i);
    if f[i].0 == RETRY {
      var text := f[i].1;
      forall v | INT_MIN <= v <= INT_MAX ensures ParseInteger(text, INT_MIN, INT_MAX) == Some(v) <==> Denotes(text, v) {
        ParsesExactly(text, INT_MIN, INT_MAX, v);
      }
    }
  }

  lemma QueueDefaults(f: Fields, entryId: string)
    ensures Absent(f, ORIG) ==> OrigId(f, entryId) == entryId
    ensures Absent(f, RETRY) ==> RetryCount(f) == 0
  {
    hide FirstWins, ParseInteger;
    FirstWinsKeys(f);
    forall name | Absent(f, name) ensures name !in FirstWins(f) {}
  }

  /** The event id a dead-letter entry stands for. */
  function OrigId(f: Fields, entryId: string): string {
    GetOr(FirstWins(f), ORIG, entryId)
  }

  /** The retry count a dead-letter entry carries; unreadable text counts as zero. */
  function RetryCount(f: Fields): int {
    if RETRY !in FirstWins(f) then 0 else
      var n := ParseInteger(FirstWins(f)[RETRY], INT_MIN, INT_MAX);
      if n.Some? then n.value else 0
  }

  // ---------------------------------------------------------------------------
  // Field lists on the way through the dead-letter queue
  // ---------------------------------------------------------------------------

  function DlqFields(e: Entry, error: string): Fields {
    [(ORIG, e.id)] + e.fields + [(ERR, error)]
  }

  function RequeueFields(f: Fields, orig: string, count: int, error: string): Fields {
    [(ORIG, orig)] + Without(f, RETRY) + [(RETRY, IntText(count + 1)), (ERR, error)]
  }

  function DeadFields(f: Fields, orig: string, error: string): Fields {
    [(ORIG, orig)] + Without(f, RETRY) + [(ERR, error)]
  }

  predicate EndsWith(f: Fields, field: (string, string)) {
    f != [] && f[|f| - 1] == field
  }

  lemma GetOrVisible(f: Fields, k: string, d: string)
    requires k !in RESERVED
    ensures GetOr(FirstWins(f), k, d) == GetOr(Visible(f), k, d)
  {
  }

  /** A replayed row depends only on the visible fields. */
  lemma ReplayRowOfVisible(f: Fields, g: Fields)
    requires Visible(f) == Visible(g)
    ensures ReplayRow(f) == ReplayRow(g)
  {
    GetOrVisible(f, "type", "unknown");
    GetOrVisible(g, "type", "unknown");
    GetOrVisible(f, "ts_ms", "0");
    GetOrVisible(g, "ts_ms", "0");
    GetOrVisible(f, "user_id", "");
    GetOrVisible(g, "user_id", "");
    GetOrVisible(f, "session_id", "");
    GetOrVisible(g, "session_id", "");
    GetOrVisible(f, "room_id", "");
    GetOrVisible(g, "room_id", "");
  }

  lemma FirstWinsPair(a: (string, string))
    ensures FirstWins([a]) == map[a.0 := a.1]
  {
    assert [a][..0] == [];
  }

  lemma FirstWinsFramed(orig: string, f: Fields, tail: Fields)
    ensures FirstWins([(ORIG, orig)] + f + tail) == FirstWins(tail) + FirstWins(f) + map[ORIG := orig]
  {
    hide FirstWins;
    FirstWinsPair((ORIG, orig));
    FirstWinsConcat([(ORIG, orig)], f);
    FirstWinsConcat([(ORIG, orig)] + f, tail);
  }

  /** Entering the dead-letter queue records the event id and loses no visible field. */
  lemma DlqKeepsEvent(e: Entry, error: string, entryId: string)
    ensures OrigId(DlqFields(e, error), entryId) == e.id
    ensures Visible(DlqFields(e, error)) == Visible(e.fields)
    ensures EndsWith(DlqFields(e, error), (ERR, error))
  {
    hide FirstWins;
    FirstWinsPair((ERR, error));
    FirstWinsFramed(e.id, e.fields, [(ERR, error)]);
  }

  lemma RequeueMap(f: Fields, orig: string, count: int, error: string)
    ensures FirstWins(RequeueFields(f, orig, count, error))
            == map[RETRY := IntText(count + 1), ERR := error] + (FirstWins(f) - {RETRY}) + map[ORIG := orig]
  {
    var tail := [(RETRY, IntText(count + 1)), (ERR, error)];
    assert tail == [tail[0]] + [tail[1]];
    FirstWinsPair(tail[0]);
    FirstWinsPair(tail[1]);
    FirstWinsConcat([tail[0]], [tail[1]]);
    FirstWinsWithout(f, RETRY);
    FirstWinsFramed(orig, Without(f, RETRY), tail);
  }

  lemma DeadMap(f: Fields, orig: string, error: string)
    ensures FirstWins(DeadFields(f, orig, error)) == map[ERR := error] + (FirstWins(f) - {RETRY}) + map[ORIG := orig]
  {
    FirstWinsPair((ERR, error));
    FirstWinsWithout(f, RETRY);
    FirstWinsFramed(orig, Without(f, RETRY), [(ERR, error)]);
  }

  /** A requeue keeps the event id and the visible fields and counts one up. */
  lemma RequeueKeepsEvent(f: Fields, orig: string, count: int, error: string, entryId: string)
    ensures OrigId(RequeueFields(f, orig, count, error), entryId) == orig
    ensures Visible(RequeueFields(f, orig, count, error)) == Visible(f)
    ensures EndsWith(RequeueFields(f, orig, count, error), (ERR, error))
    ensures INT_MIN <= count + 1 <= INT_MAX ==> RetryCount(RequeueFields(f, orig, count, error)) == count + 1
  {
    hide FirstWins, ParseInteger, NatText, Without;
    RequeueMap(f, orig, count, error);
    if INT_MIN <= count + 1 <= INT_MAX { IntTextRoundTrip(count + 1, INT_MIN, INT_MAX); }
  }

  /** The dead stream keeps the event id and the visible fields. */
  lemma DeadKeepsEvent(f: Fields, orig: string, error: string, entryId: string)
    ensures OrigId(DeadFields(f, orig, error), entryId) == orig
    ensures Visible(DeadFields(f, orig, error)) == Visible(f)
    ensures EndsWith(DeadFields(f, orig, error), (ERR, error))
  {
    hide FirstWins, Without;
    DeadMap(f, orig, error);
  }

  // ---------------------------------------------------------------------------
  // When both sides write the same row
  // ---------------------------------------------------------------------------

  /** Names that repeat end with the value they start with. */
  predicate EdgesAgree(f: Fields) {
    forall i, j | 0 <= i < |f| && 0 <= j < |f| :: FirstAt(f, i) && LastAt(f, j) && f[i].0 == f[j].0 ==> f[i].1 == f[j].1
  }

  predicate NoReserved(f: Fields) {
    forall i | 0 <= i < |f| :: f[i].0 !in RESERVED
  }

  /** The uuid fields that replay reads are empty or well formed. */
  predicate UuidsClean(f: Fields) {
    forall i | 0 <= i < |f| && FirstAt(f, i) && f[i].0 in UUID_FIELDS :: f[i].1 == "" || IsUuidText(f[i].1)
  }

  predicate WellFormed(f: Fields) {
    EdgesAgree(f) && NoReserved(f) && UuidsClean(f)
  }

  lemma EdgesDecideMaps(f: Fields)
    ensures EdgesAgree(f) <==> FirstWins(f) == LastWins(f)
  {
    FirstWinsKeys(f);
    LastWinsKeys(f);
    if EdgesAgree(f) {
      forall k | k in FirstWins(f) ensures FirstWins(f)[k] == LastWins(f)[k] {
        var i :| FirstAt(f, i) && f[i].0 == k;
        var j :| LastAt(f, j) && f[j].0 == k;
        FirstWinsAt(f, i);
        LastWinsAt(f, j);
      }
    }
    if FirstWins(f) == LastWins(f) {
      forall i, j | FirstAt(f, i) && LastAt(f, j) && f[i].0 == f[j].0 ensures f[i].1 == f[j].1 {
        FirstWinsAt(f, i);
        LastWinsAt(f, j);
      }
    }
  }

  lemma CleanUuidValues(f: Fields)
    ensures UuidsClean(f) <==>
            forall n | n in UUID_FIELDS :: NormalizeUuid(GetOr(FirstWins(f), n, "")) == GetOr(FirstWins(f), n, "")
  {
    FirstWinsKeys(f);
    forall i | FirstAt(f, i) ensures GetOr(FirstWins(f), f[i].0, "") == f[i].1 { FirstWinsAt(f, i); }
    if UuidsClean(f) {
      forall n | n in UUID_FIELDS
        ensures NormalizeUuid(GetOr(FirstWins(f), n, "")) == GetOr(FirstWins(f), n, "")
      {
        if n in FirstWins(f) {
          var i :| FirstAt(f, i) && f[i].0 == n;
        }
      }
    }
  }

  /** Replaying a dead-lettered event writes the worker's row exactly for well-formed events. */
  lemma ReplayAgreesExactly(f: Fields)
    ensures WorkerRow(f) == ReplayRow(f) <==> WellFormed(f)
  {
    hide FirstWins, LastWins, EdgesAgree, UuidsClean, IsUuidText, Timestamp;
    FirstWinsKeys(f);
    LastWinsKeys(f);
    EdgesDecideMaps(f);
    CleanUuidValues(f);
    assert {"user_id", "session_id", "room_id"} == UUID_FIELDS;
    if NoReserved(f) {
      forall k | k in FirstWins(f) ensures k !in RESERVED {
        var i :| FirstAt(f, i) && f[i].0 == k;
      }
      assert FirstWins(f) - RESERVED == FirstWins(f);
    }
    if WorkerRow(f) == ReplayRow(f) {
      assert LastWins(f) == FirstWins(f) - RESERVED;
      forall i | 0 <= i < |f| ensures f[i].0 !in RESERVED {
        assert f[i].0 in LastWins(f).Keys;
      }
      assert NoReserved(f);
    }
  }
}
