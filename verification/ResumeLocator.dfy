/** The text form of a resume locator hint: one "key=value" line per field. */
module ResumeLocator {
  import opened Options

  datatype Hint = Hint(backend: string, world: string, role: string, gameMode: string, region: string, shard: string)

  const EMPTY := Hint("", "", "", "", "", "")

  const NEWLINE := '\n'
  const RETURN := '\r'

  function Line(key: string, value: string): string {
    key + "=" + value
  }

  function Serialize(h: Hint): string {
    Line("backend", h.backend) + "\n" + (
    Line("world_id", h.world) + "\n" + (
    Line("role", h.role) + "\n" + (
    Line("game_mode", h.gameMode) + "\n" + (
    Line("region", h.region) + "\n" + (
    Line("shard", h.shard) + "\n" + "")))))
  }

  /** Position of the first c at or after from, or the length when there is none. */
  function Find(s: string, c: char, from: nat): (k: nat)
    requires from <= |s|
    ensures from <= k <= |s| && (k < |s| ==> s[k] == c) && forall i | from <= i < k :: s[i] != c
    decreases |s| - from
  {
    if from == |s| || s[from] == c then from else Find(s, c, from + 1)
  }

  /** Drop one trailing carriage return. */
  function Strip(value: string): string {
    if value != "" && value[|value| - 1] == RETURN then value[..|value| - 1] else value
  }

  function Put(h: Hint, key: string, value: string): Hint {
    if key == "backend" then h.(backend := value)
    else if key == "world_id" then h.(world := value)
    else if key == "role" then h.(role := value)
    else if key == "game_mode" then h.(gameMode := value)
    else if key == "region" then h.(region := value)
    else if key == "shard" then h.(shard := value)
    else h
  }

  /** What a line does to the hint: nothing without a separator. */
  function Apply(h: Hint, line: string): Hint {
    var sep := Find(line, '=', 0);
    if sep == |line| then h else Put(h, line[..sep], Strip(line[sep + 1..]))
  }

  /** The lines of a text, applied in order. */
  function ParseFrom(h: Hint, s: string): Hint
    decreases |s|
  {
    var end := Find(s, NEWLINE, 0);
    if end == |s| then Apply(h, s) else ParseFrom(Apply(h, s[..end]), s[end + 1..])
  }

  function Parse(s: string): Option<Hint> {
    var h := ParseFrom(EMPTY, s);
    if h == EMPTY then None else Some(h)
  }

  // ---------------------------------------------------------------------------
  // The round trip
  // ---------------------------------------------------------------------------

  predicate Clean(value: string) {
    NEWLINE !in value && Strip(value) == value
  }

  predicate NoNewlines(h: Hint) {
    && NEWLINE !in h.backend && NEWLINE !in h.world && NEWLINE !in h.role
    && NEWLINE !in h.gameMode && NEWLINE !in h.region && NEWLINE !in h.shard
  }

  function StripAll(h: Hint): Hint {
    Hint(Strip(h.backend), Strip(h.world), Strip(h.role), Strip(h.gameMode), Strip(h.region), Strip(h.shard))
  }

  lemma FindIs(s: string, c: char, k: nat)
    requires k <= |s| && (k < |s| ==> s[k] == c) && c !in s[..k]
    ensures Find(s, c, 0) == k
  {
    assert forall i | 0 <= i < k :: s[i] == s[..k][i] && s[..k][i] != c;
  }

  /** A line of a known form sets its field. */
  lemma ApplyLine(h: Hint, key: string, value: string)
    requires '=' !in key
    ensures Apply(h, Line(key, value)) == Put(h, key, Strip(value))
  {
    hide Put, Strip, Find;
    var line := Line(key, value);
    assert line[..|key|] == key && line[|key|] == '=' && line[|key| + 1..] == value;
    FindIs(line, '=', |key|);
  }

  lemma ParseLine(h: Hint, key: string, value: string, rest: string)
    requires '=' !in key && NEWLINE !in key && NEWLINE !in value
    ensures ParseFrom(h, Line(key, value) + "\n" + rest) == ParseFrom(Put(h, key, Strip(value)), rest)
  {
    hide Put, Strip, Apply, Find;
    var line := Line(key, value);
    var s := line + "\n" + rest;
    NoNewlineInLine(key, value);
    assert s[..|line|] == line && s[|line|] == NEWLINE && s[|line| + 1..] == rest;
    FindIs(s, NEWLINE, |line|);
    ApplyLine(h, key, value);
  }

  lemma NoNewlineInLine(key: string, value: string)
    requires NEWLINE !in key && NEWLINE !in value
    ensures NEWLINE !in Line(key, value)
  {
  }

  /** Without newlines, parsing gives back the hint with one trailing carriage return dropped from each field. */
  lemma ParseSerialized(h: Hint)
    requires NoNewlines(h)
    ensures ParseFrom(EMPTY, Serialize(h)) == StripAll(h)
  {
    hide ParseFrom, Line, Strip;
    var s5 := Line("shard", h.shard) + "\n" + "";
    var s4 := Line("region", h.region) + "\n" + s5;
    var s3 := Line("game_mode", h.gameMode) + "\n" + s4;
    var s2 := Line("role", h.role) + "\n" + s3;
    var s1 := Line("world_id", h.world) + "\n" + s2;
    var h0 := EMPTY.(backend := Strip(h.backend));
    var h1 := h0.(world := Strip(h.world));
    var h2 := h1.(role := Strip(h.role));
    var h3 := h2.(gameMode := Strip(h.gameMode));
    var h4 := h3.(region := Strip(h.region));
    ParseLine(EMPTY, "backend", h.backend, s1);
    ParseLine(h0, "world_id", h.world, s2);
    ParseLine(h1, "role", h.role, s3);
    ParseLine(h2, "game_mode", h.gameMode, s4);
    ParseLine(h3, "region", h.region, s5);
    ParseLine(h4, "shard", h.shard, "");
    ParseEnd(StripAll(h));
  }

  lemma ParseEnd(h: Hint)
    ensures ParseFrom(h, "") == h
  {
  }

  /** A line has no newline, so neither has a field taken from one. */
  lemma ApplyClean(h: Hint, line: string)
    requires NoNewlines(h) && NEWLINE !in line
    ensures NoNewlines(Apply(h, line))
  {
    var sep := Find(line, '=', 0);
    if sep < |line| {
      assert NEWLINE !in line[sep + 1..];
    }
  }

  lemma {:induction false} ParsedClean(h: Hint, s: string)
    requires NoNewlines(h)
    ensures NoNewlines(ParseFrom(h, s))
    decreases |s|
  {
    hide Apply;
    var end := Find(s, NEWLINE, 0);
    assert NEWLINE !in s[..end];
    if end == |s| {
      assert s[..end] == s;
      ApplyClean(h, s);
    } else {
      ApplyClean(h, s[..end]);
      ParsedClean(Apply(h, s[..end]), s[end + 1..]);
    }
  }

  /** Exactly when the round trip gives the hint back; values may contain '='. */
  lemma RoundTripExactly(h: Hint)
    ensures Parse(Serialize(h)) == Some(h) <==>
            && Clean(h.backend) && Clean(h.world) && Clean(h.role)
            && Clean(h.gameMode) && Clean(h.region) && Clean(h.shard)
            && h != EMPTY
  {
    hide ParseFrom, Serialize, Strip;
    if NoNewlines(h) {
      ParseSerialized(h);
    } else {
      ParsedClean(EMPTY, Serialize(h));
    }
  }

  // ---------------------------------------------------------------------------
  // The code
  // ---------------------------------------------------------------------------

  method FindChar(s: string, c: char, from: nat) returns (k: nat)
    requires from <= |s|
    ensures k == Find(s, c, from)
  {
    k := from;
    while k < |s| && s[k] != c
      invariant from <= k <= |s| && Find(s, c, from) == Find(s, c, k)
    {
      k := k + 1;
    }
  }

  method ReadLine(h: Hint, line: string) returns (hint: Hint)
    ensures hint == Apply(h, line)
  {
    hide Put;
    hint := h;
    if line != "" {
      var sep := FindChar(line, '=', 0);
      if sep < |line| {
        var value := line[sep + 1..];
        if value != "" && value[|value| - 1] == RETURN {
          value := value[..|value| - 1];
        }
        hint := Put(hint, line[..sep], value);
      }
    }
  }

  method ParseResumeLocatorHint(payload: string) returns (result: Option<Hint>)
    ensures result == Parse(payload)
  {
    hide Find, Apply, ParseFrom;
    var hint := EMPTY;
    var offset := 0;
    assert payload[0..] == payload;
    while offset <= |payload|
      invariant 0 <= offset <= |payload| && ParseFrom(hint, payload[offset..]) == ParseFrom(EMPTY, payload)
      decreases |payload| - offset
    {
      var lineEnd := FindChar(payload, NEWLINE, offset);
      FirstLine(hint, payload, offset);
      hint := ReadLine(hint, payload[offset..lineEnd]);
      if lineEnd == |payload| {
        return if hint == EMPTY then None else Some(hint);
      }
      offset := lineEnd + 1;
    }
    result := if hint == EMPTY then None else Some(hint);
  }

  /** Parsing from an offset applies the line there and goes on behind it. */
  lemma FirstLine(h: Hint, s: string, from: nat)
    requires from <= |s|
    ensures var end := Find(s, NEWLINE, from);
            var next := Apply(h, s[from..end]);
            ParseFrom(h, s[from..]) == if end == |s| then next else ParseFrom(next, s[end + 1..])
  {
    hide Apply;
    var end, rest := Find(s, NEWLINE, from), s[from..];
    FindShift(s, NEWLINE, from);
    assert rest[..end - from] == s[from..end];
    if end < |s| {
      assert rest[end - from + 1..] == s[end + 1..];
    } else {
      assert rest == s[from..end];
    }
  }

  lemma FindShift(s: string, c: char, from: nat)
    requires from <= |s|
    ensures Find(s, c, from) == from + Find(s[from..], c, 0)
  {
    var k := Find(s, c, from);
    var t := s[from..];
    assert forall i | 0 <= i < k - from :: t[i] == s[from + i];
    FindIs(t, c, k - from);
  }
}
