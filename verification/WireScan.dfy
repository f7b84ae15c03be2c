/**
 The scan of a login response for its resume token: the first length-delimited field number 6 of a message in the
 Protocol Buffers wire format ("Base 128 Varints" and "Message Structure" of its Encoding specification).
 */
module WireScan {
  import opened Numbers
  import opened Options
  import opened Packet

  const MAX_VARINT := 10
  const TOKEN_FIELD := 6

  // ---------------------------------------------------------------------------
  // Varints
  // ---------------------------------------------------------------------------

  /** The base-128 number written least significant digit first, continuation bits aside. */
  function Digits(raw: Bytes): nat {
    if raw == [] then 0 else
      var low: int := raw[0];
      low % 128 + 128 * Digits(raw[1..])
  }

  /** A varint: every byte but the last has its continuation bit, and there are at most ten. */
  predicate IsVarint(raw: Bytes) {
    1 <= |raw| <= MAX_VARINT && raw[|raw| - 1] < 128 && forall i | 0 <= i < |raw| - 1 :: raw[i] >= 128
  }

  function Value(raw: Bytes): nat {
    Digits(raw) % WORD
  }

  function EncodeVarint(v: nat): Bytes {
    if v < 128 then [v] else [128 + v % 128] + EncodeVarint(v / 128)
  }

  /** The canonical encoding is a varint of the right value. */
  lemma EncodeVarintValue(v: nat)
    requires v < WORD
    ensures IsVarint(EncodeVarint(v)) && Value(EncodeVarint(v)) == v
  {
    assert Power(128, 10) == 128 * (128 * (128 * (128 * (128 * (128 * (128 * (128 * (128 * 128)))))))) by {
      assert Power(128, 5) == 128 * 128 * 128 * 128 * 128;
    }
    EncodeDigits(v, 10);
  }

  lemma {:induction false} EncodeDigits(v: nat, n: nat)
    requires v < Power(128, n)
    ensures var raw := EncodeVarint(v);
            && Digits(raw) == v && 1 <= |raw| && (n >= 1 ==> |raw| <= n) && raw[|raw| - 1] < 128
            && forall i | 0 <= i < |raw| - 1 :: raw[i] >= 128
    decreases n
  {
    var raw := EncodeVarint(v);
    if v < 128 {
      assert raw[1..] == [];
      assert Digits(raw) == v + 128 * Digits([]);
    } else {
      assert n >= 2 by {
        assert Power(128, 0) == 1 && Power(128, 1) == 128;
      }
      EncodeDigits(v / 128, n - 1);
      assert raw[1..] == EncodeVarint(v / 128);
    }
  }

  lemma {:induction false} DigitsSnoc(raw: Bytes, b: Byte)
    ensures Digits(raw + [b]) == Digits(raw) + b % 128 * Power(128, |raw|)
  {
    var all := raw + [b];
    if raw == [] {
      assert all[1..] == [];
      assert Digits([]) == 0;
    } else {
      DigitsSnoc(raw[1..], b);
      assert all[1..] == raw[1..] + [b];
      Rearrange(b % 128, Power(128, |raw| - 1));
    }
  }

  lemma Rearrange(d: nat, p: nat)
    ensures 128 * (d * p) == d * (128 * p)
  {
  }

  /** The end of the varint at the front of s, if there is one, with n bytes of it already seen. */
  function VarintEnd(s: Bytes, n: nat): (r: Option<nat>)
    ensures r.Some? ==> n < r.value <= |s|
    decreases |s| - n
  {
    if n >= |s| || n >= MAX_VARINT then None
    else if s[n] < 128 then Some(n + 1)
    else VarintEnd(s, n + 1)
  }

  /** The varint at the front of s is the only prefix that is one. */
  lemma {:induction false} VarintEndIs(s: Bytes, n: nat, end: nat)
    requires n < end <= |s| && forall i | 0 <= i < n :: s[i] >= 128
    ensures VarintEnd(s, n) == Some(end) <==> IsVarint(s[..end])
    decreases |s| - n
  {
    if n < MAX_VARINT && s[n] >= 128 && n + 1 < end {
      VarintEndIs(s, n + 1, end);
      assert s[..end][n] == s[n];
    } else if n < MAX_VARINT && s[n] >= 128 {
      assert s[..end][|s[..end]| - 1] == s[n];
    } else if n < MAX_VARINT && n + 1 < end {
      assert s[..end][n] == s[n];
    }
  }

  /** read_varint: the value and the new offset. */
  method ReadVarint(input: Bytes, offset: nat) returns (ok: bool, next: nat, value: nat)
    requires offset <= |input|
    ensures offset <= next <= |input| && (ok <==> VarintEnd(input[offset..], 0).Some?)
    ensures ok ==> next == offset + VarintEnd(input[offset..], 0).value && value == Value(input[offset..next])
  {
    hide Digits, Power;
    next, value := offset, 0;
    var shift := 0;
    ghost var s := input[offset..];
    assert input[offset..offset] == [];
    NoDigits();
    while next < |input|
      invariant offset <= next <= |input| && shift == 7 * (next - offset) && next - offset < MAX_VARINT
      invariant value == Value(input[offset..next])
      invariant VarintEnd(s, 0) == VarintEnd(s, next - offset)
      decreases |input| - next
    {
      var byte := input[next];
      assert s[next - offset] == byte;
      AddDigit(input[offset..next], byte);
      assert input[offset..next] + [byte] == input[offset..next + 1];
      value := (value + byte % 128 * Power(128, shift / 7)) % WORD;
      next := next + 1;
      if byte < 128 { return true, next, value; }
      shift := shift + 7;
      if shift > 63 { return false, next, value; }
    }
    ok := false;
  }

  lemma NoDigits()
    ensures Value([]) == 0
  {
  }

  lemma AddDigit(raw: Bytes, b: Byte)
    ensures Value(raw + [b]) == (Value(raw) + b % 128 * Power(128, |raw|)) % WORD
  {
    hide Digits, Power;
    DigitsSnoc(raw, b);
    ModPlus(Digits(raw), b % 128 * Power(128, |raw|));
  }

  lemma ModPlus(a: nat, b: nat)
    ensures (a % WORD + b) % WORD == (a + b) % WORD
  {
    var q := a / WORD;
    var r := (a % WORD + b) % WORD;
    var k := (a % WORD + b) / WORD;
    assert a + b == (q + k) * WORD + r;
  }

  // ---------------------------------------------------------------------------
  // The scan, and the loop with its 64-bit sums
  // ---------------------------------------------------------------------------

  /** The varint at an offset: where it ends, and its value. */
  function ReadAt(p: Bytes, offset: nat): (r: Option<(nat, nat)>)
    requires offset <= |p|
    ensures r.Some? ==> offset < r.value.0 <= |p| && r.value.1 < WORD
  {
    var end := VarintEnd(p[offset..], 0);
    if end.None? then None else Some((offset + end.value, Value(p[offset..][..end.value])))
  }

  /** The scan from an offset, with no bound on sums. */
  function Scan(p: Bytes, offset: nat): Option<Bytes>
    requires offset <= |p|
    decreases |p| - offset
  {
    if offset == |p| then None else
      match ReadAt(p, offset)
      case None => None
      case Some((n, tag)) =>
        if tag % 8 != 0 && tag % 8 != 2 then None else
          match ReadAt(p, n)
          case None => None
          case Some((m, len)) =>
            if tag % 8 == 0 then Scan(p, m)
            else if m + len > |p| then None
            else if tag / 8 == TOKEN_FIELD then Some(p[m..m + len])
            else Scan(p, m + len)
  }

  /** How a turn of the loop ends: with an answer, by asking for bytes beyond the payload, or at another offset. */
  datatype Turn = Stop(token: Option<Bytes>) | Overrun | Go(offset: nat)

  /** The length after a tag, if it can be read: where its value starts, and the length. */
  function LengthAt(p: Bytes, offset: nat): Option<(nat, nat)>
    requires offset < |p|
  {
    match ReadAt(p, offset)
    case None => None
    case Some((n, tag)) => if tag % 8 == 2 then ReadAt(p, n) else None
  }

  /** One turn of the loop. The sum of offset and length is taken modulo 2^64. */
  function TurnAt(p: Bytes, offset: nat): (t: Turn)
    requires offset < |p| < WORD
    ensures t.Go? ==> t.offset <= |p|
  {
    match ReadAt(p, offset)
    case None => Stop(None)
    case Some((n, tag)) =>
      if tag % 8 == 0 then
        match ReadAt(p, n) { case None => Stop(None) case Some((m, _)) => Go(m) }
      else if tag % 8 == 2 then
        match ReadAt(p, n) {
          case None => Stop(None)
          case Some((m, len)) =>
            if (m + len) % WORD > |p| then Stop(None)
            else if tag / 8 != TOKEN_FIELD then Go((m + len) % WORD)
            else if m + len > |p| then Overrun
            else Stop(Some(p[m..m + len]))
        }
      else Stop(None)
  }

  /** The loop from an offset, for at most so many turns. */
  function Walk(p: Bytes, offset: nat, turns: nat): (t: Turn)
    requires offset <= |p| < WORD
    ensures t.Go? ==> t.offset < |p|
    decreases turns
  {
    if offset == |p| then Stop(None)
    else if turns == 0 then Go(offset)
    else match TurnAt(p, offset) { case Go(next) => Walk(p, next, turns - 1) case t => t }
  }

  /** The loop from an offset ends with this answer. */
  ghost predicate EndsFrom(p: Bytes, offset: nat, token: Option<Bytes>)
    requires offset <= |p| < WORD
  {
    exists turns :: Walk(p, offset, turns) == Stop(token)
  }

  /** skip_wire_value: step over a varint or a length-delimited value; other wire types fail. */
  method SkipWireValue(input: Bytes, offset: nat, wireType: nat) returns (ok: bool, next: nat)
    requires offset <= |input| < WORD
    ensures var at := ReadAt(input, offset);
            && next <= |input|
            && (ok <==> at.Some? && (wireType == 0 || (wireType == 2 && (at.value.0 + at.value.1) % WORD <= |input|)))
            && (ok ==> next == if wireType == 0 then at.value.0 else (at.value.0 + at.value.1) % WORD)
  {
    next := offset;
    ok := false;
    if wireType == 0 {
      var ignored;
      ok, next, ignored := ReadVarint(input, offset);
    } else if wireType == 2 {
      var len;
      ok, next, len := ReadVarint(input, offset);
      if ok {
        assert input[offset..next] == input[offset..][..next - offset];
        if (next + len) % WORD > |input| {
          ok := false;
        } else {
          next := (next + len) % WORD;
        }
      }
    }
  }

  /** One turn, as the code takes it. */
  method TakeTurn(payload: Bytes, offset: nat) returns (t: Turn)
    requires offset < |payload| < WORD
    ensures t == TurnAt(payload, offset)
  {
    hide VarintEnd, Value;
    var ok, next, tag := ReadVarint(payload, offset);
    if !ok { return Stop(None); }
    assert payload[offset..next] == payload[offset..][..next - offset];
    if tag / 8 == TOKEN_FIELD && tag % 8 == 2 {
      var fine, body, len := ReadVarint(payload, next);
      if !fine { return Stop(None); }
      assert payload[next..body] == payload[next..][..body - next];
      if (body + len) % WORD > |payload| { return Stop(None); }
      return if body + len > |payload| then Overrun else Stop(Some(payload[body..body + len]));
    }
    var skipped, after := SkipWireValue(payload, next, tag % 8);
    t := if skipped then Go(after) else Stop(None);
  }

  /** The first turns of the loop. */
  method ParseResumeToken(payload: Bytes, turns: nat) returns (t: Turn)
    requires |payload| < WORD
    ensures t == Walk(payload, 0, turns)
  {
    hide TurnAt;
    var offset := 0;
    var left := turns;
    while offset < |payload|
      invariant 0 <= offset <= |payload| && 0 <= left && Walk(payload, offset, left) == Walk(payload, 0, turns)
      decreases left
    {
      if left == 0 { return Go(offset); }
      t := TakeTurn(payload, offset);
      if !t.Go? { return; }
      offset := t.offset;
      left := left - 1;
    }
    t := Stop(None);
  }

  // ---------------------------------------------------------------------------
  // When the loop is the scan
  // ---------------------------------------------------------------------------

  /** The length met at this offset passes the test only because its sum wraps around. */
  predicate WrapsAt(p: Bytes, offset: nat)
    requires offset < |p| < WORD
  {
    LengthAt(p, offset).Some?
    && var (m, len) := LengthAt(p, offset).value;
    m + len >= WORD && (m + len) % WORD <= |p|
  }

  lemma Suffix(p: Bytes, i: nat, j: nat)
    requires i + j <= |p|
    ensures p[i..][j..] == p[i + j..]
  {
  }

  /** A turn without a wrapped length is a step of the scan. */
  lemma TurnIsScan(p: Bytes, offset: nat)
    requires offset < |p| < WORD && !WrapsAt(p, offset)
    ensures var t := TurnAt(p, offset);
            match t
            case Stop(r) => Scan(p, offset) == r
            case Overrun => false
            case Go(next) => offset < next && Scan(p, offset) == Scan(p, next)
  {
    hide ReadAt;
  }

  /** A wrapped length asks for bytes beyond the payload, or leads back to before its own value; the scan finds none. */
  lemma WrapTurn(p: Bytes, offset: nat)
    requires offset < |p| < WORD && WrapsAt(p, offset)
    ensures Scan(p, offset) == None
    ensures var t := TurnAt(p, offset);
            t.Overrun? || (t.Go? && t.offset < LengthAt(p, offset).value.0)
  {
    hide ReadAt;
  }

  /** The turn at which a wrapped length is first met on the way, if there is one. */
  function FirstWrap(p: Bytes, offset: nat): (r: Option<Turn>)
    requires offset <= |p| < WORD
    ensures r.Some? && r.value.Go? ==> r.value.offset <= |p|
    decreases |p| - offset
  {
    if offset == |p| then None
    else if WrapsAt(p, offset) then Some(TurnAt(p, offset))
    else
      TurnIsScan(p, offset);
      match TurnAt(p, offset) { case Go(next) => FirstWrap(p, next) case _ => None }
  }

  lemma {:induction false} WrapFreeWalk(p: Bytes, offset: nat, turns: nat)
    requires offset <= |p| < WORD && FirstWrap(p, offset).None? && turns >= |p| - offset
    ensures Walk(p, offset, turns) == Stop(Scan(p, offset))
    decreases |p| - offset
  {
    hide TurnAt, WrapsAt, VarintEnd, Value;
    if offset < |p| {
      TurnIsScan(p, offset);
      var t := TurnAt(p, offset);
      if t.Go? { WrapFreeWalk(p, t.offset, turns - 1); }
    }
  }

  /** Up to the first wrapped length the walk goes forward, and the scan finds none. */
  lemma {:induction false} WalkToWrap(p: Bytes, offset: nat) returns (at: nat, turns: nat)
    requires offset <= |p| < WORD && FirstWrap(p, offset).Some?
    ensures at < |p| && WrapsAt(p, at) && FirstWrap(p, offset) == Some(TurnAt(p, at))
    ensures Scan(p, offset) == None
    ensures forall more: nat :: Walk(p, offset, turns + more) == Walk(p, at, more)
    decreases |p| - offset
  {
    hide TurnAt, WrapsAt, VarintEnd, Value, Scan;
    if WrapsAt(p, offset) {
      at, turns := offset, 0;
      WrapTurn(p, offset);
    } else {
      TurnIsScan(p, offset);
      var next := TurnAt(p, offset).offset;
      var rest;
      at, rest := WalkToWrap(p, next);
      turns := rest + 1;
      forall more: nat ensures Walk(p, offset, turns + more) == Walk(p, at, more) {
        assert Walk(p, offset, turns + more) == Walk(p, next, rest + more);
      }
    }
  }

  /** One walk ends with one answer. */
  lemma {:induction false} OneEnd(p: Bytes, offset: nat, turns: nat, more: nat)
    requires offset <= |p| < WORD && !Walk(p, offset, turns).Go?
    ensures Walk(p, offset, turns + more) == Walk(p, offset, turns)
    decreases turns
  {
    hide TurnAt;
    if offset < |p| {
      var t := TurnAt(p, offset);
      if t.Go? { OneEnd(p, t.offset, turns - 1, more); }
    }
  }

  // ---------------------------------------------------------------------------
  // The loop ends within as many turns as there are bytes, or never
  // ---------------------------------------------------------------------------

  lemma {:induction false} WalkOn(p: Bytes, offset: nat, a: nat, b: nat)
    requires offset <= |p| < WORD && Walk(p, offset, a).Go?
    ensures Walk(p, offset, a + b) == Walk(p, Walk(p, offset, a).offset, b)
    decreases a
  {
    hide TurnAt;
    if a > 0 {
      var t := TurnAt(p, offset);
      assert t.Go?;
      WalkOn(p, t.offset, a - 1, b);
    }
  }

  /** More offsets than there are values: two are the same. */
  lemma {:induction false} Pigeonhole(offsets: seq<nat>, n: nat) returns (i: nat, j: nat)
    requires |offsets| > n && forall k | 0 <= k < |offsets| :: offsets[k] < n
    ensures i < j < |offsets| && offsets[i] == offsets[j]
    decreases n
  {
    var last := |offsets| - 1;
    if k :| 0 <= k < last && offsets[k] == offsets[last] {
      return k, last;
    }
    // no other offset is the last one, so the largest value can be renamed to it
    var v := offsets[last];
    var others := seq(last, k requires 0 <= k < last => if offsets[k] == n - 1 then v else offsets[k]);
    forall k | 0 <= k < last ensures others[k] < n - 1 {
      assert offsets[k] != v;
    }
    i, j := Pigeonhole(others, n - 1);
  }

  lemma {:induction false} CycleNeverEnds(p: Bytes, offset: nat, period: nat, turns: nat)
    requires offset < |p| < WORD && period > 0 && Walk(p, offset, period) == Go(offset)
    ensures Walk(p, offset, turns).Go?
    decreases turns
  {
    if turns >= period {
      WalkOn(p, offset, period, turns - period);
      CycleNeverEnds(p, offset, period, turns - period);
    } else if !Walk(p, offset, turns).Go? {
      OneEnd(p, offset, turns, period - turns);
    }
  }

  /** The loop ends within |p| turns or not at all. */
  lemma EndsInTime(p: Bytes, offset: nat, token: Option<Bytes>)
    requires offset <= |p| < WORD
    ensures EndsFrom(p, offset, token) <==> Walk(p, offset, |p|) == Stop(token)
  {
    hide Walk, TurnAt;
    if EndsFrom(p, offset, token) {
      var turns :| Walk(p, offset, turns) == Stop(token);
      if Walk(p, offset, |p|).Go? {
        StuckForever(p, offset, turns);
      } else {
        OneEnd(p, offset, turns, |p|);
        OneEnd(p, offset, |p|, turns);
      }
    }
  }

  lemma StuckForever(p: Bytes, offset: nat, turns: nat)
    requires offset <= |p| < WORD && Walk(p, offset, |p|).Go?
    ensures Walk(p, offset, turns).Go?
  {
    hide Walk, TurnAt;
    forall k | 0 <= k <= |p| ensures Walk(p, offset, k).Go? {
      if !Walk(p, offset, k).Go? { OneEnd(p, offset, k, |p| - k); }
    }
    var offsets := seq(|p| + 1, k requires 0 <= k <= |p| => Walk(p, offset, k).offset);
    var i, j := Pigeonhole(offsets, |p|);
    var at := Walk(p, offset, i).offset;
    WalkOn(p, offset, i, j - i);
    if turns >= i {
      WalkOn(p, offset, i, turns - i);
      CycleNeverEnds(p, at, j - i, turns - i);
    }
  }

  /**
   The loop ends with the answer of the scan if and only if no length met on the way passes the test by wrapping around,
   or the first that does leads back to an offset from which the loop ends without a token.
   */
  lemma ScanExactly(p: Bytes)
    requires |p| < WORD
    ensures EndsFrom(p, 0, Scan(p, 0)) <==>
            match FirstWrap(p, 0)
            case None => true
            case Some(t) => t.Go? && Walk(p, t.offset, |p|) == Stop(None)
  {
    hide TurnAt, WrapsAt, VarintEnd, Value, Scan, FirstWrap;
    if FirstWrap(p, 0).None? {
      WrapFreeWalk(p, 0, |p|);
    } else {
      var at, turns := WalkToWrap(p, 0);
      WrapTurn(p, at);
      assert Scan(p, 0) == None;
      AfterWrap(p, at, turns);
    }
  }

  /** Where the scan goes on after the field at an offset, if it does. */
  function ScanNext(p: Bytes, offset: nat): (r: Option<nat>)
    requires offset < |p|
    ensures r.Some? ==> offset < r.value <= |p|
  {
    match ReadAt(p, offset)
    case None => None
    case Some((n, tag)) =>
      match ReadAt(p, n)
      case None => None
      case Some((m, len)) =>
        if tag % 8 == 0 then Some(m)
        else if tag % 8 == 2 && m + len <= |p| && tag / 8 != TOKEN_FIELD then Some(m + len)
        else None
  }

  /** The offsets that the scan visits. */
  function ScanTrail(p: Bytes, offset: nat): seq<nat>
    requires offset <= |p|
    decreases |p| - offset
  {
    [offset] + if offset == |p| || ScanNext(p, offset).None? then [] else ScanTrail(p, ScanNext(p, offset).value)
  }

  /** The offsets that so many turns of the loop visit. */
  function LoopTrail(p: Bytes, offset: nat, turns: nat): seq<nat>
    requires offset <= |p| < WORD
    decreases turns
  {
    [offset] + if offset == |p| || turns == 0 || !TurnAt(p, offset).Go? then []
               else LoopTrail(p, TurnAt(p, offset).offset, turns - 1)
  }

  /** The loop ends with the answer of the scan, and has taken the same way. */
  ghost predicate SameWay(p: Bytes, offset: nat, turns: nat)
    requires offset <= |p| < WORD
  {
    Walk(p, offset, turns) == Stop(Scan(p, offset)) && LoopTrail(p, offset, turns) == ScanTrail(p, offset)
  }

  lemma NextIsTurn(p: Bytes, offset: nat)
    requires offset < |p| < WORD
    ensures !WrapsAt(p, offset) ==>
              if TurnAt(p, offset).Go? then ScanNext(p, offset) == Some(TurnAt(p, offset).offset)
              else ScanNext(p, offset).None?
    ensures WrapsAt(p, offset) ==> ScanNext(p, offset).None?
  {
    hide ReadAt;
  }

  lemma {:induction false} WrapFreeTrail(p: Bytes, offset: nat, turns: nat)
    requires offset <= |p| < WORD && FirstWrap(p, offset).None? && turns >= |p| - offset
    ensures LoopTrail(p, offset, turns) == ScanTrail(p, offset)
    decreases |p| - offset
  {
    hide TurnAt, WrapsAt, ScanNext, Scan;
    if offset < |p| {
      TurnIsScan(p, offset);
      NextIsTurn(p, offset);
      var t := TurnAt(p, offset);
      if t.Go? { WrapFreeTrail(p, t.offset, turns - 1); }
    }
  }

  lemma {:induction false} WrapLeavesTrail(p: Bytes, offset: nat, turns: nat)
    requires offset <= |p| < WORD && FirstWrap(p, offset).Some? && Walk(p, offset, turns).Stop?
    ensures LoopTrail(p, offset, turns) != ScanTrail(p, offset)
    decreases turns
  {
    hide TurnAt, WrapsAt, ScanNext;
    NextIsTurn(p, offset);
    if WrapsAt(p, offset) {
      WrapTurn(p, offset);
      assert |LoopTrail(p, offset, turns)| > 1;
    } else {
      TurnIsScan(p, offset);
      var next := TurnAt(p, offset).offset;
      WrapLeavesTrail(p, next, turns - 1);
      assert LoopTrail(p, offset, turns)[1..] == LoopTrail(p, next, turns - 1);
      assert ScanTrail(p, offset)[1..] == ScanTrail(p, next);
    }
  }

  /** The loop is the scan, step by step and to the end, if and only if no length met on the scan's way wraps around. */
  lemma LoopIsScanExactly(p: Bytes)
    requires |p| < WORD
    ensures (exists turns: nat :: SameWay(p, 0, turns)) <==> FirstWrap(p, 0).None?
  {
    hide FirstWrap, Walk, LoopTrail, ScanTrail, Scan;
    if FirstWrap(p, 0).None? {
      WrapFreeWalk(p, 0, |p|);
      WrapFreeTrail(p, 0, |p|);
      assert SameWay(p, 0, |p|);
    } else {
      forall turns: nat ensures !SameWay(p, 0, turns) {
        if Walk(p, 0, turns).Stop? { WrapLeavesTrail(p, 0, turns); }
      }
    }
  }

  lemma AfterWrap(p: Bytes, at: nat, turns: nat)
    requires at < |p| < WORD && WrapsAt(p, at) && forall more: nat :: Walk(p, 0, turns + more) == Walk(p, at, more)
    ensures EndsFrom(p, 0, None) <==> TurnAt(p, at).Go? && Walk(p, TurnAt(p, at).offset, |p|) == Stop(None)
  {
    hide TurnAt, WrapsAt, VarintEnd, Value;
    WrapTurn(p, at);
    var t := TurnAt(p, at);
    EndsInTime(p, 0, None);
    assert Walk(p, 0, turns + (|p| + 1)) == Walk(p, at, |p| + 1);
    if t.Go? {
      assert Walk(p, at, |p| + 1) == Walk(p, t.offset, |p|);
    }
    if EndsFrom(p, 0, None) {
      OneEnd(p, 0, |p|, turns + 1);
      assert |p| + (turns + 1) == turns + (|p| + 1);
    }
  }

  // ---------------------------------------------------------------------------
  // Two messages with a wrapped length
  // ---------------------------------------------------------------------------

  /** The upper end of a long varint. */
  function Ones(k: nat): Bytes {
    if k == 0 then [0x01] else [0xFF] + Ones(k - 1)
  }

  /** Field 1 with a length whose sum with the offset is 2^64 plus excess. */
  function Wrapped(excess: nat): Bytes
    requires excess < 2
  {
    [0x0A] + ([0xF5 + excess] + Ones(8))
  }

  lemma {:induction false} OnesAre(k: nat)
    ensures Digits(Ones(k)) == 2 * Power(128, k) - 1 && |Ones(k)| == k + 1 && Ones(k)[k] == 0x01
    ensures forall i | 0 <= i < k :: Ones(k)[i] == 0xFF
  {
    if k == 0 {
      assert Ones(0)[1..] == [] && Digits([]) == 0;
    } else {
      OnesAre(k - 1);
      assert Ones(k)[1..] == Ones(k - 1);
    }
  }

  lemma WrappedLength(low: Byte)
    requires low == 0xF5 || low == 0xF6
    ensures var raw := [low] + Ones(8);
            IsVarint(raw) && |raw| == 10 && Value(raw) == WORD - 0x100 + low
  {
    var raw := [low] + Ones(8);
    OnesAre(8);
    assert Power(128, 8) == 0x100_0000_0000_0000 by {
      assert Power(128, 4) == 0x1000_0000;
    }
    assert raw[1..] == Ones(8);
    hide Power, Ones;
  }

  lemma TagOfOne()
    ensures IsVarint([0x0A]) && Value([0x0A]) == 10
  {
    var tag: Bytes := [0x0A];
    assert tag[1..] == [] && Digits([]) == 0;
  }

  lemma WrappedReads(excess: nat)
    requires excess < 2
    ensures var p := Wrapped(excess);
            ReadAt(p, 0) == Some((1, 10)) && ReadAt(p, 1) == Some((11, WORD - 11 + excess))
  {
    var p := Wrapped(excess);
    var tag: Bytes, raw := [0x0A], [0xF5 + excess] + Ones(8);
    hide Ones, VarintEnd, Digits, IsVarint, Value, ReadAt;
    assert p[0..] == p;
    TagOfOne();
    WrappedLength(0xF5 + excess);
    ReadsRaw(p, 0, tag, raw);
    assert raw + [] == raw;
    ReadsRaw(p, 1, raw, []);
  }

  /** A length whose sum wraps to zero: the loop never ends, where the scan finds no token. */
  lemma WrappedLoopsForever(turns: nat)
    ensures Walk(Wrapped(0), 0, turns).Go? && Scan(Wrapped(0), 0) == None
  {
    hide VarintEnd, Value, ReadAt;
    var p := Wrapped(0);
    WrappedReads(0);
    assert TurnAt(p, 0) == Go(0) && WrapsAt(p, 0);
    assert Walk(p, 0, 1) == Walk(p, 0, 0) == Go(0);
    hide TurnAt, Walk;
    CycleNeverEnds(p, 0, 1, turns);
    WrapTurn(p, 0);
  }

  /** A length whose sum wraps into its own bytes: the loop still ends as the scan does, by accident. */
  lemma WrappedMayEnd()
    ensures FirstWrap(Wrapped(1), 0).Some? && EndsFrom(Wrapped(1), 0, Scan(Wrapped(1), 0))
  {
    hide VarintEnd, Value, ReadAt;
    var p := Wrapped(1);
    WrappedReads(1);
    assert TurnAt(p, 0) == Go(1) && WrapsAt(p, 0);
    assert TurnAt(p, 1) == Stop(None);
    assert Walk(p, 1, |p|) == Stop(None);
    hide TurnAt, WrapsAt, Walk;
    ScanExactly(p);
  }

  // ---------------------------------------------------------------------------
  // Messages
  // ---------------------------------------------------------------------------

  /** A field as it stands on the wire; its varints need not be the shortest ones. */
  datatype Field =
    | VarintField(tag: Bytes, value: Bytes)
    | BytesField(tag: Bytes, len: Bytes, body: Bytes)
    | OtherField(tag: Bytes, body: Bytes)

  predicate WellFormed(f: Field) {
    && IsVarint(f.tag)
    && match f
       case VarintField(tag, value) => Value(tag) % 8 == 0 && IsVarint(value)
       case BytesField(tag, len, body) => Value(tag) % 8 == 2 && IsVarint(len) && Value(len) == |body|
       case OtherField(tag, _) => Value(tag) % 8 != 0 && Value(tag) % 8 != 2
  }

  function FieldBytes(f: Field): Bytes {
    match f
    case VarintField(tag, value) => tag + value
    case BytesField(tag, len, body) => tag + (len + body)
    case OtherField(tag, body) => tag + body
  }

  function MessageBytes(fs: seq<Field>): Bytes {
    if fs == [] then [] else FieldBytes(fs[0]) + MessageBytes(fs[1..])
  }

  predicate IsToken(f: Field) {
    f.BytesField? && Value(f.tag) / 8 == TOKEN_FIELD
  }

  /** The first length-delimited field 6; a field of another wire type ends the search. */
  function FirstToken(fs: seq<Field>): Option<Bytes> {
    if fs == [] || fs[0].OtherField? then None
    else if IsToken(fs[0]) then Some(fs[0].body)
    else FirstToken(fs[1..])
  }

  lemma ReadFront(raw: Bytes, rest: Bytes)
    requires IsVarint(raw)
    ensures var s := raw + rest;
            VarintEnd(s, 0) == Some(|raw|) && s[..|raw|] == raw && s[|raw|..] == rest
  {
    var s := raw + rest;
    assert s[..|raw|] == raw;
    VarintEndIs(s, 0, |raw|);
  }

  /** Reading a varint that stands at an offset. */
  lemma ReadsRaw(p: Bytes, offset: nat, raw: Bytes, rest: Bytes)
    requires offset <= |p| && p[offset..] == raw + rest && IsVarint(raw)
    ensures ReadAt(p, offset) == Some((offset + |raw|, Value(raw))) && p[offset + |raw|..] == rest
  {
    hide VarintEnd, Value, IsVarint;
    ReadFront(raw, rest);
    Suffix(p, offset, |raw|);
  }

  /**
   The turn at a well-formed field: no length wraps around, and the field is stepped over unless it ends the search.
   */
  lemma FieldTurn(p: Bytes, offset: nat, f: Field, more: Bytes)
    requires offset <= |p| < WORD && p[offset..] == FieldBytes(f) + more && WellFormed(f)
    ensures offset < |p| && !WrapsAt(p, offset) && offset + |FieldBytes(f)| <= |p|
    ensures p[offset + |FieldBytes(f)|..] == more
    ensures TurnAt(p, offset) == if f.OtherField? then Stop(None)
                                 else if IsToken(f) then Stop(Some(f.body))
                                 else Go(offset + |FieldBytes(f)|)
  {
    hide Value, IsVarint, TurnAt, WrapsAt;
    FieldNotEmpty(f.tag);
    Behind(p, offset, FieldBytes(f), more);
    match f
    case VarintField(tag, value) => VarintTurn(p, offset, tag, value, more);
    case BytesField(tag, len, body) => BytesTurn(p, offset, f, more);
    case OtherField(tag, body) => OtherTurn(p, offset, tag, body, more);
  }

  lemma Behind(p: Bytes, offset: nat, a: Bytes, b: Bytes)
    requires offset <= |p| && p[offset..] == a + b
    ensures offset + |a| + |b| == |p| && p[offset + |a|..] == b
  {
    Suffix(p, offset, |a|);
  }

  lemma VarintTurn(p: Bytes, offset: nat, tag: Bytes, value: Bytes, more: Bytes)
    requires offset < |p| < WORD && p[offset..] == tag + value + more && WellFormed(VarintField(tag, value))
    ensures !WrapsAt(p, offset) && TurnAt(p, offset) == Go(offset + |tag| + |value|)
  {
    hide Value, IsVarint, ReadAt;
    assert tag + value + more == tag + (value + more);
    ReadsRaw(p, offset, tag, value + more);
    ReadsRaw(p, offset + |tag|, value, more);
  }

  lemma BytesTurn(p: Bytes, offset: nat, f: Field, more: Bytes)
    requires f.BytesField? && WellFormed(f)
    requires offset < |p| < WORD && p[offset..] == f.tag + (f.len + f.body) + more
    ensures !WrapsAt(p, offset)
    ensures TurnAt(p, offset) == if IsToken(f) then Stop(Some(f.body)) else Go(offset + |f.tag| + |f.len| + |f.body|)
  {
    hide Value, IsVarint, ReadAt;
    assert f.tag + (f.len + f.body) + more == f.tag + (f.len + (f.body + more));
    ReadsRaw(p, offset, f.tag, f.len + (f.body + more));
    ReadsRaw(p, offset + |f.tag|, f.len, f.body + more);
    var start := offset + |f.tag| + |f.len|;
    Behind(p, start, f.body, more);
    assert p[start..start + |f.body|] == p[start..][..|f.body|] == f.body;
  }

  lemma OtherTurn(p: Bytes, offset: nat, tag: Bytes, body: Bytes, more: Bytes)
    requires offset < |p| < WORD && p[offset..] == tag + body + more
    requires IsVarint(tag) && Value(tag) % 8 != 0 && Value(tag) % 8 != 2
    ensures !WrapsAt(p, offset) && TurnAt(p, offset) == Stop(None)
  {
    hide Value, IsVarint, ReadAt;
    assert tag + body + more == tag + (body + more);
    ReadsRaw(p, offset, tag, body + more);
  }

  /**
   The scan inverts the encoding, for every well-formed message and whatever the encoder's choice of varints, and no
   length on the way wraps around.
   */
  lemma {:induction false} ScanFindsToken(p: Bytes, offset: nat, fs: seq<Field>)
    requires offset <= |p| < WORD && p[offset..] == MessageBytes(fs) && forall i | 0 <= i < |fs| :: WellFormed(fs[i])
    ensures Scan(p, offset) == FirstToken(fs) && FirstWrap(p, offset).None?
    decreases |fs|
  {
    hide TurnAt, WrapsAt, WellFormed, FieldBytes, IsToken, ReadAt;
    if fs != [] {
      var next := offset + |FieldBytes(fs[0])|;
      FieldTurn(p, offset, fs[0], MessageBytes(fs[1..]));
      TurnIsScan(p, offset);
      ScanFindsToken(p, next, fs[1..]);
    }
  }

  lemma FieldNotEmpty(tag: Bytes)
    requires IsVarint(tag)
    ensures |tag| >= 1
  {
  }

  /** The loop on a well-formed message ends with its first token. */
  lemma LoopFindsToken(fs: seq<Field>)
    requires |MessageBytes(fs)| < WORD && forall i | 0 <= i < |fs| :: WellFormed(fs[i])
    ensures var p := MessageBytes(fs);
            Walk(p, 0, |p|) == Stop(FirstToken(fs))
  {
    hide WellFormed, Scan, MessageBytes, FirstToken, FirstWrap, Walk;
    var p := MessageBytes(fs);
    assert p[0..] == p;
    ScanFindsToken(p, 0, fs);
    WrapFreeWalk(p, 0, |p|);
  }

  /** With only varint and length-delimited fields the answer is the first field 6 wherever it stands, or none. */
  lemma {:induction false} PlainMessages(fs: seq<Field>)
    requires forall i | 0 <= i < |fs| :: !fs[i].OtherField?
    ensures FirstToken(fs).None? <==> forall i | 0 <= i < |fs| :: !IsToken(fs[i])
    ensures forall k | 0 <= k < |fs| && IsToken(fs[k]) && (forall i | 0 <= i < k :: !IsToken(fs[i])) ::
              FirstToken(fs) == Some(fs[k].body)
  {
    hide Value;
    if fs != [] && !IsToken(fs[0]) {
      var rest := fs[1..];
      PlainMessages(rest);
      assert forall k | 1 <= k < |fs| :: fs[k] == rest[k - 1];
      assert forall i | 0 <= i < |rest| :: rest[i] == fs[i + 1];
    }
  }

  /** What an encoder is given: a field number and a number or a byte string. */
  datatype Given = GivenNumber(number: nat, value: nat) | GivenBytes(number: nat, body: Bytes)

  predicate Encodable(g: Given) {
    8 * g.number + 2 < WORD && match g { case GivenNumber(_, v) => v < WORD case GivenBytes(_, b) => |b| < WORD }
  }

  function EncodeField(g: Given): Field {
    match g
    case GivenNumber(number, v) => VarintField(EncodeVarint(8 * number), EncodeVarint(v))
    case GivenBytes(number, body) => BytesField(EncodeVarint(8 * number + 2), EncodeVarint(|body|), body)
  }

  lemma EncodedWellFormed(g: Given)
    requires Encodable(g)
    ensures var f := EncodeField(g);
            WellFormed(f) && !f.OtherField? && (IsToken(f) <==> g.GivenBytes? && g.number == TOKEN_FIELD)
  {
    hide IsVarint, Value, EncodeVarint;
    match g
    case GivenNumber(number, v) =>
      EncodeVarintValue(8 * number);
      EncodeVarintValue(v);
    case GivenBytes(number, body) =>
      EncodeVarintValue(8 * number + 2);
      EncodeVarintValue(|body|);
  }

  function Encode(gs: seq<Given>): Bytes {
    MessageBytes(seq(|gs|, i requires 0 <= i < |gs| => EncodeField(gs[i])))
  }

  /** The loop on an encoded message ends with the first byte string given for field 6, or none when there is none. */
  lemma ScanInvertsEncoder(gs: seq<Given>)
    requires |Encode(gs)| < WORD && forall i | 0 <= i < |gs| :: Encodable(gs[i])
    ensures Walk(Encode(gs), 0, |Encode(gs)|).Stop?
    ensures var r := Walk(Encode(gs), 0, |Encode(gs)|).token;
            && (r.None? <==> forall i | 0 <= i < |gs| :: !(gs[i].GivenBytes? && gs[i].number == TOKEN_FIELD))
            && forall k | 0 <= k < |gs| && gs[k].GivenBytes? && gs[k].number == TOKEN_FIELD
                          && (forall i | 0 <= i < k :: !(gs[i].GivenBytes? && gs[i].number == TOKEN_FIELD)) ::
                 r == Some(gs[k].body)
  {
    hide WellFormed, IsToken, Walk, MessageBytes, FirstToken, EncodeVarint, Encodable;
    var fs := seq(|gs|, i requires 0 <= i < |gs| => EncodeField(gs[i]));
    forall i | 0 <= i < |gs|
      ensures WellFormed(fs[i]) && !fs[i].OtherField?
      ensures IsToken(fs[i]) <==> gs[i].GivenBytes? && gs[i].number == TOKEN_FIELD
    {
      EncodedWellFormed(gs[i]);
    }
    LoopFindsToken(fs);
    PlainMessages(fs);
  }
}
