/**
 Binding a UDP endpoint to a session: a ticket is issued over TCP, a bind request presents it from an endpoint, failed
 requests back off, and RUDP datagrams are forwarded until the session falls back to TCP. The message authentication
 code is an uninterpreted function; clock readings come with the steps and need not be monotone.
 */
module UdpBind {
  import opened Numbers
  import opened Options
  import Packet

  type Endpoint = (string, nat)
  type Time = nat

  /**
   port: where UDP is listened for, zero for nowhere. mac: the token for a session, nonce and expiry; empty when there
   is no secret or it cannot be computed. rollout: RUDP is enabled.
   */
  datatype Config = Config(
    port: nat, base: nat, cap: nat, maxAttempts: nat, ttl: nat, rollout: bool, mac: (string, nat, nat) -> string)

  /** What the configuration loader guarantees. */
  predicate ConfigOk(c: Config) {
    10 <= c.base <= 60000 && c.base <= c.cap <= 300000 && 1 <= c.maxAttempts <= 32
  }

  datatype Ticket = Ticket(nonce: nat, expires: Time, token: string)

  const NO_TICKET := Ticket(0, 0, "")

  datatype State = State(
    ticket: Ticket, issuedAt: Time, attempts: nat, retryAfter: Time,
    bound: bool, endpoint: Option<Endpoint>, selected: bool, engine: bool, fallback: bool)

  const FRESH := State(NO_TICKET, 0, 0, 0, false, None, false, false, false)

  datatype Request = Request(session: string, ticket: Ticket)

  datatype Code = Ok | InvalidPayload | Unauthorized | Busy | Forbidden

  // ---------------------------------------------------------------------------
  // The retry delay
  // ---------------------------------------------------------------------------

  function RetryDelay(c: Config, attempt: nat): nat {
    var capped := Min(attempt, 8);
    Min(c.base * Power(2, if capped == 0 then 0 else capped - 1), c.cap)
  }

  /** From the base delay the wait doubles with every attempt up to the eighth, never above the cap. */
  lemma RetryDelayDoubles(c: Config, attempt: nat)
    requires ConfigOk(c)
    ensures RetryDelay(c, 1) == c.base && c.base <= RetryDelay(c, attempt) <= c.cap
    ensures 1 <= attempt < 8 ==> RetryDelay(c, attempt + 1) == Min(2 * RetryDelay(c, attempt), c.cap)
    ensures attempt >= 8 ==> RetryDelay(c, attempt) == RetryDelay(c, 8)
  {
    Doubles(c.base, if attempt == 0 then 0 else Min(attempt, 8) - 1);
    if attempt >= 1 { Doubles(c.base, attempt - 1); }
    hide Power;
  }

  lemma Doubles(base: nat, n: nat)
    ensures Power(2, 0) == 1 && base * Power(2, n) >= base && base * Power(2, n + 1) == 2 * (base * Power(2, n))
  {
    assert Power(2, n + 1) == 2 * Power(2, n);
  }

  // ---------------------------------------------------------------------------
  // The operations on a session
  // ---------------------------------------------------------------------------

  function Issue(c: Config, session: string, s: State, nonce: nat, now: Time, selected: bool): Option<State> {
    var expires := now + c.ttl;
    var token := c.mac(session, nonce, expires);
    if c.port == 0 || token == "" then None
    else Some(State(Ticket(nonce, expires, token), now, 0, 0, false, None, selected, selected, false))
  }

  function BackOff(c: Config, s: State, now: Time): State {
    var next := Min(s.attempts + 1, c.maxAttempts);
    s.(attempts := next, retryAfter := now + RetryDelay(c, next))
  }

  /** Why a request that is not too early fails, if it does. */
  function Refusal(c: Config, s: State, req: Request, endpoint: Endpoint, now: Time): Code {
    if s.ticket.expires == 0 || s.ticket.nonce == 0 || s.ticket.token == "" then Unauthorized
    else if req.ticket.expires < now then Unauthorized
    else if s.ticket.expires < now then Unauthorized
    else if req.ticket.expires != s.ticket.expires || req.ticket.nonce != s.ticket.nonce then Unauthorized
    else if req.ticket.token != s.ticket.token
            || req.ticket.token != c.mac(req.session, req.ticket.nonce, req.ticket.expires) then Unauthorized
    else if s.bound && s.endpoint != Some(endpoint) then Forbidden
    else Ok
  }

  function Bind(s: State, endpoint: Endpoint): State {
    s.(bound := true, endpoint := Some(endpoint), attempts := 0, retryAfter := 0, fallback := false,
       engine := s.engine || s.selected)
  }

  function Apply(c: Config, s: State, req: Request, endpoint: Endpoint, now: Time): (State, Code) {
    if s.retryAfter > now then (s, Busy) else
      var code := Refusal(c, s, req, endpoint, now);
      (if code == Ok then Bind(s, endpoint) else BackOff(c, s, now), code)
  }

  /** An inner frame of a datagram, and whether it passes the opcode and transport checks. */
  datatype Inner = Inner(bytes: Packet.Bytes, allowed: bool)

  function AllowedPrefix(frames: seq<Inner>): seq<Inner> {
    if frames == [] || !frames[0].allowed then [] else [frames[0]] + AllowedPrefix(frames[1..])
  }

  predicate BoundTo(s: State, endpoint: Endpoint) {
    s.bound && s.endpoint == Some(endpoint)
  }

  /** The datagram may be handed to the RUDP engine. */
  predicate RudpUsable(c: Config, s: State) {
    c.rollout && s.selected && !s.fallback && s.engine
  }

  // ---------------------------------------------------------------------------
  // Runs of one session
  // ---------------------------------------------------------------------------

  datatype Event =
    | Issued(ticket: Ticket, at: Time, selected: bool)
    | Succeeded(endpoint: Endpoint, ticket: Ticket, at: Time)
    | Failed(at: Time)
    | TooEarly(at: Time)
    | Datagram(endpoint: Endpoint, forwarded: seq<Inner>, flagged: bool)
    | Flagged

  /** marking: a datagram had a frame that may not be forwarded, and the flag is still to be set for it. */
  datatype Machine = Machine(s: State, marking: bool, log: seq<Event>)

  const START := Machine(FRESH, false, [])

  datatype Action =
    | IssueTicket(nonce: nat, now: Time, selected: bool)
    | BindRequest(req: Request, endpoint: Endpoint, now: Time)
    | Receive(endpoint: Endpoint, engineFails: bool, frames: seq<Inner>)
    | MarkInvalid
    | EgressFails

  function DoIssue(c: Config, session: string, m: Machine, nonce: nat, now: Time, selected: bool): Machine {
    match Issue(c, session, m.s, nonce, now, selected)
    case None => m
    case Some(s) => m.(s := s, log := m.log + [Issued(s.ticket, now, selected)])
  }

  function DoBind(c: Config, m: Machine, req: Request, endpoint: Endpoint, now: Time): Machine {
    var (s, code) := Apply(c, m.s, req, endpoint, now);
    m.(s := s, log := m.log + [match code case Ok => Succeeded(endpoint, req.ticket, now)
                                          case Busy => TooEarly(now)
                                          case _ => Failed(now)])
  }

  /** A datagram found to come from this session's endpoint; it is looked at again under the lock. */
  function DoReceive(c: Config, m: Machine, endpoint: Endpoint, engineFails: bool, frames: seq<Inner>): Machine {
    if !m.s.bound || m.s.endpoint != Some(endpoint) then m
    else if !RudpUsable(c, m.s) || engineFails then
      m.(s := m.s.(fallback := true), log := m.log + [Datagram(endpoint, [], true)])
    else
      var forwarded := AllowedPrefix(frames);
      m.(marking := |forwarded| < |frames|, log := m.log + [Datagram(endpoint, forwarded, false)])
  }

  function DoFlag(m: Machine): Machine {
    m.(s := m.s.(fallback := true), log := m.log + [Flagged])
  }

  function Step(c: Config, session: string, m: Machine, a: Action): Option<Machine> {
    match a
    case IssueTicket(nonce, now, selected) => Some(DoIssue(c, session, m, nonce, now, selected))
    case BindRequest(req, endpoint, now) =>
      if req.session == session && session != "" && req.ticket.token != ""
      then Some(DoBind(c, m, req, endpoint, now)) else None
    case Receive(endpoint, engineFails, frames) =>
      if m.marking then None else Some(DoReceive(c, m, endpoint, engineFails, frames))
    case MarkInvalid => if m.marking then Some(DoFlag(m.(marking := false))) else None
    case EgressFails => Some(DoFlag(m))
  }

  function Run(c: Config, session: string, actions: seq<Action>): Option<Machine> {
    if actions == [] then Some(START) else
      var before := Run(c, session, actions[..|actions| - 1]);
      if before.None? then None else Step(c, session, before.value, actions[|actions| - 1])
  }

  // ---------------------------------------------------------------------------
  // What the history says
  // ---------------------------------------------------------------------------

  /** The latest ticket issued. */
  function TicketOf(log: seq<Event>): Option<Ticket> {
    if log == [] then None else
      var ev := log[|log| - 1];
      if ev.Issued? then Some(ev.ticket) else TicketOf(log[..|log| - 1])
  }

  /** The endpoint bound since the latest ticket. */
  function EndpointOf(log: seq<Event>): Option<Endpoint> {
    if log == [] then None else
      match log[|log| - 1]
      case Issued(_, _, _) => None
      case Succeeded(endpoint, _, _) => Some(endpoint)
      case _ => EndpointOf(log[..|log| - 1])
  }

  /** The latest ticket selected the session for RUDP. */
  predicate SelectedOf(log: seq<Event>) {
    log != [] && var ev := log[|log| - 1]; if ev.Issued? then ev.selected else SelectedOf(log[..|log| - 1])
  }

  predicate SetsFlag(ev: Event) {
    ev.Flagged? || (ev.Datagram? && ev.flagged)
  }

  predicate Resets(ev: Event) {
    ev.Issued? || ev.Succeeded?
  }

  /** The session has fallen back since the latest ticket or success. */
  predicate FlagOf(log: seq<Event>) {
    log != [] && var ev := log[|log| - 1]; SetsFlag(ev) || (!Resets(ev) && FlagOf(log[..|log| - 1]))
  }

  /** When requests failed since the latest ticket or success. */
  function FailuresOf(log: seq<Event>): seq<Time> {
    if log == [] then [] else
      match log[|log| - 1]
      case Issued(_, _, _) => []
      case Succeeded(_, _, _) => []
      case Failed(at) => FailuresOf(log[..|log| - 1]) + [at]
      case _ => FailuresOf(log[..|log| - 1])
  }

  /** How long a request must hold off after these failures. */
  function HoldUntil(c: Config, fails: seq<Time>): Time {
    if fails == [] then 0 else fails[|fails| - 1] + RetryDelay(c, Min(|fails|, c.maxAttempts))
  }

  /** An event is in order after the history before it. */
  predicate Fits(c: Config, session: string, log: seq<Event>, ev: Event) {
    match ev
    case Issued(ticket, at, _) =>
      ticket.expires == at + c.ttl && ticket.token == c.mac(session, ticket.nonce, ticket.expires)
    case Succeeded(endpoint, ticket, at) =>
      && TicketOf(log) == Some(ticket) && at <= ticket.expires && at >= HoldUntil(c, FailuresOf(log))
      && (EndpointOf(log).Some? ==> EndpointOf(log) == Some(endpoint))
    case Failed(at) => at >= HoldUntil(c, FailuresOf(log))
    case TooEarly(at) => at < HoldUntil(c, FailuresOf(log))
    case Datagram(endpoint, forwarded, _) =>
      && EndpointOf(log) == Some(endpoint) && (forwarded != [] ==> !FlagOf(log))
      && forall i | 0 <= i < |forwarded| :: forwarded[i].allowed
    case Flagged => true
  }

  ghost predicate LogOk(c: Config, session: string, log: seq<Event>) {
    forall n | 0 <= n < |log| :: Fits(c, session, log[..n], log[n])
  }

  /** The session's fields are what the history says. */
  ghost predicate Tied(c: Config, m: Machine) {
    && m.s.ticket == (if TicketOf(m.log).Some? then TicketOf(m.log).value else NO_TICKET)
    && m.s.bound == m.s.endpoint.Some? && m.s.endpoint == EndpointOf(m.log)
    && m.s.fallback == FlagOf(m.log) && m.s.selected == SelectedOf(m.log) == m.s.engine
    && m.s.attempts == Min(|FailuresOf(m.log)|, c.maxAttempts)
    && m.s.retryAfter == HoldUntil(c, FailuresOf(m.log))
  }

  ghost predicate Inv(c: Config, session: string, m: Machine) {
    Tied(c, m) && LogOk(c, session, m.log)
  }

  lemma LogSnoc(c: Config, session: string, log: seq<Event>, ev: Event)
    requires LogOk(c, session, log) && Fits(c, session, log, ev)
    ensures LogOk(c, session, log + [ev])
  {
    hide Fits;
    var all := log + [ev];
    forall n | 0 <= n < |all| ensures Fits(c, session, all[..n], all[n]) {
      if n < |log| { assert all[..n] == log[..n]; } else { assert all[..n] == log; }
    }
  }

  lemma AllowedPrefixIs(frames: seq<Inner>)
    ensures AllowedPrefix(frames) <= frames
    ensures forall i | 0 <= i < |AllowedPrefix(frames)| :: AllowedPrefix(frames)[i].allowed
    ensures |AllowedPrefix(frames)| < |frames| ==> !frames[|AllowedPrefix(frames)|].allowed
  {
  }

  /** The step adds event ev, which fits, and the new fields are tied to the new history. */
  lemma Extends(c: Config, session: string, m: Machine, m': Machine, ev: Event)
    requires Inv(c, session, m) && m'.log == m.log + [ev] && Fits(c, session, m.log, ev) && Tied(c, m')
    ensures Inv(c, session, m')
  {
    hide Fits, Tied;
    LogSnoc(c, session, m.log, ev);
  }

  lemma Last(log: seq<Event>, ev: Event)
    ensures (log + [ev])[..|log + [ev]| - 1] == log && (log + [ev])[|log + [ev]| - 1] == ev
  {
  }

  /** After a ticket the history starts afresh. */
  lemma IssueShows(log: seq<Event>, ev: Event)
    requires ev.Issued?
    ensures var all := log + [ev];
            && TicketOf(all) == Some(ev.ticket) && EndpointOf(all).None? && !FlagOf(all)
            && SelectedOf(all) == ev.selected && FailuresOf(all) == []
  {
    Last(log, ev);
  }

  lemma IssueKeeps(c: Config, session: string, m: Machine, nonce: nat, now: Time, selected: bool)
    requires ConfigOk(c) && Inv(c, session, m)
    ensures Inv(c, session, DoIssue(c, session, m, nonce, now, selected))
  {
    hide LogOk, RetryDelay, EndpointOf, FlagOf, FailuresOf, TicketOf, SelectedOf;
    var m' := DoIssue(c, session, m, nonce, now, selected);
    if m' != m {
      IssueShows(m.log, Issued(m'.s.ticket, now, selected));
      Extends(c, session, m, m', Issued(m'.s.ticket, now, selected));
    }
  }

  lemma BindKeeps(c: Config, session: string, m: Machine, req: Request, endpoint: Endpoint, now: Time)
    requires ConfigOk(c) && Inv(c, session, m) && req.session == session
    ensures Inv(c, session, DoBind(c, m, req, endpoint, now))
  {
    hide LogOk, RetryDelay;
    var m' := DoBind(c, m, req, endpoint, now);
    var ev := m'.log[|m.log|];
    Last(m.log, ev);
    assert m'.log == m.log + [ev];
    Extends(c, session, m, m', ev);
  }

  lemma ReceiveKeeps(c: Config, session: string, m: Machine, endpoint: Endpoint, engineFails: bool, frames: seq<Inner>)
    requires Inv(c, session, m)
    ensures Inv(c, session, DoReceive(c, m, endpoint, engineFails, frames))
  {
    hide LogOk, RetryDelay, AllowedPrefix, HoldUntil;
    var m' := DoReceive(c, m, endpoint, engineFails, frames);
    if m' != m {
      var ev := m'.log[|m.log|];
      AllowedPrefixIs(frames);
      Last(m.log, ev);
      Extends(c, session, m, m', ev);
    }
  }

  lemma FlagKeeps(c: Config, session: string, m: Machine, marking: bool)
    requires Inv(c, session, m)
    ensures Inv(c, session, DoFlag(m.(marking := marking)))
  {
    hide LogOk, RetryDelay, HoldUntil;
    Last(m.log, Flagged);
    Extends(c, session, m, DoFlag(m.(marking := marking)), Flagged);
  }

  lemma {:induction false} RunInv(c: Config, session: string, actions: seq<Action>)
    requires ConfigOk(c) && Run(c, session, actions).Some?
    ensures Inv(c, session, Run(c, session, actions).value)
  {
    hide DoIssue, DoBind, DoReceive, DoFlag, Fits, RetryDelay;
    if actions != [] {
      var n := |actions| - 1;
      RunInv(c, session, actions[..n]);
      hide Inv;
      var m := Run(c, session, actions[..n]).value;
      match actions[n]
      case IssueTicket(nonce, now, selected) => IssueKeeps(c, session, m, nonce, now, selected);
      case BindRequest(req, endpoint, now) => BindKeeps(c, session, m, req, endpoint, now);
      case Receive(endpoint, engineFails, frames) => ReceiveKeeps(c, session, m, endpoint, engineFails, frames);
      case MarkInvalid => FlagKeeps(c, session, m, false);
      case EgressFails => FlagKeeps(c, session, m, m.marking);
    }
  }

  // ---------------------------------------------------------------------------
  // Theorems over whole runs
  // ---------------------------------------------------------------------------

  ghost predicate NoTicketBetween(log: seq<Event>, i: nat, j: nat)
    requires j <= |log|
  {
    forall k | i < k < j :: !log[k].Issued?
  }

  lemma {:induction false} EndpointSince(c: Config, session: string, log: seq<Event>, i: nat, j: nat)
    requires LogOk(c, session, log) && i < j <= |log| && log[i].Succeeded? && NoTicketBetween(log, i, j)
    ensures EndpointOf(log[..j]) == Some(log[i].endpoint)
    decreases j
  {
    hide RetryDelay;
    assert log[..j][..j - 1] == log[..j - 1];
    if i < j - 1 {
      EndpointSince(c, session, log, i, j - 1);
      assert Fits(c, session, log[..j - 1], log[j - 1]);
    }
  }

  lemma {:induction false} TicketSince(log: seq<Event>, i: nat, j: nat)
    requires i < j <= |log| && NoTicketBetween(log, i, j)
    ensures TicketOf(log[..j]) == TicketOf(log[..i + 1])
    decreases j
  {
    if i < j - 1 {
      assert log[..j][..j - 1] == log[..j - 1];
      TicketSince(log, i, j - 1);
    }
  }

  /** Between two tickets every successful bind comes from one endpoint and presents one ticket. */
  lemma OneEndpoint(c: Config, session: string, actions: seq<Action>, i: nat, j: nat)
    requires ConfigOk(c) && Run(c, session, actions).Some?
    requires var log := Run(c, session, actions).value.log;
             i < j < |log| && log[i].Succeeded? && log[j].Succeeded? && NoTicketBetween(log, i, j)
    ensures var log := Run(c, session, actions).value.log;
            log[i].endpoint == log[j].endpoint && log[i].ticket == log[j].ticket
  {
    hide Run, RetryDelay;
    RunInv(c, session, actions);
    var log := Run(c, session, actions).value.log;
    assert Fits(c, session, log[..i], log[i]) && Fits(c, session, log[..j], log[j]);
    EndpointSince(c, session, log, i, j);
    TicketSince(log, i, j);
    assert log[..i + 1][..i] == log[..i];
  }

  lemma {:induction false} TicketWasIssued(log: seq<Event>)
    requires TicketOf(log).Some?
    ensures exists i | 0 <= i < |log| ::
              log[i].Issued? && log[i].ticket == TicketOf(log).value && NoTicketBetween(log, i, |log|)
  {
    var n := |log| - 1;
    if log[n].Issued? {
      assert NoTicketBetween(log, n, |log|);
    } else {
      TicketWasIssued(log[..n]);
      var i :| 0 <= i < n && log[..n][i].Issued? && log[..n][i].ticket == TicketOf(log[..n]).value
               && NoTicketBetween(log[..n], i, n);
      forall k | i < k < |log| ensures !log[k].Issued? {
        if k < n { assert log[..n][k] == log[k]; }
      }
      assert NoTicketBetween(log, i, |log|);
    }
  }

  /** Every successful bind presents the latest ticket, issued before it and authentic, no later than its expiry. */
  lemma LatestTicketInTime(c: Config, session: string, actions: seq<Action>, j: nat)
    requires ConfigOk(c) && Run(c, session, actions).Some? && j < |Run(c, session, actions).value.log|
    requires Run(c, session, actions).value.log[j].Succeeded?
    ensures var log := Run(c, session, actions).value.log;
            var won := log[j];
            && won.at <= won.ticket.expires && won.ticket.token == c.mac(session, won.ticket.nonce, won.ticket.expires)
            && exists i | 0 <= i < j :: log[i].Issued? && log[i].ticket == won.ticket && NoTicketBetween(log, i, j)
                                        && won.at <= log[i].at + c.ttl
  {
    hide Run, RetryDelay;
    RunInv(c, session, actions);
    var log := Run(c, session, actions).value.log;
    assert Fits(c, session, log[..j], log[j]);
    TicketWasIssued(log[..j]);
    var i :| 0 <= i < j && log[..j][i].Issued? && log[..j][i].ticket == log[j].ticket
             && NoTicketBetween(log[..j], i, j);
    assert log[..j][i] == log[i];
    assert Fits(c, session, log[..i], log[i]);
    forall k | i < k < j ensures !log[k].Issued? { assert log[..j][k] == log[k]; }
    assert NoTicketBetween(log, i, j);
  }

  lemma {:induction false} FlagSince(log: seq<Event>, i: nat, j: nat)
    requires i < j <= |log| && SetsFlag(log[i]) && forall k | i < k < j :: !Resets(log[k])
    ensures FlagOf(log[..j])
    decreases j
  {
    assert log[..j][..j - 1] == log[..j - 1];
    if i < j - 1 { FlagSince(log, i, j - 1); }
  }

  /** Once the session has fallen back, no datagram has frames forwarded before a new ticket or a successful bind. */
  lemma FallbackStopsForwarding(c: Config, session: string, actions: seq<Action>, i: nat, j: nat)
    requires ConfigOk(c) && Run(c, session, actions).Some?
    requires var log := Run(c, session, actions).value.log;
             i < j < |log| && SetsFlag(log[i]) && log[j].Datagram? && log[j].forwarded != []
    ensures var log := Run(c, session, actions).value.log;
            exists k | i < k < j :: Resets(log[k])
  {
    hide Run, RetryDelay;
    RunInv(c, session, actions);
    var log := Run(c, session, actions).value.log;
    assert Fits(c, session, log[..j], log[j]);
    if forall k | i < k < j :: !Resets(log[k]) {
      FlagSince(log, i, j);
    }
  }

  /** The waits after the first n failures together. */
  function Waits(c: Config, n: nat): nat {
    if n == 0 then 0 else Waits(c, n - 1) + RetryDelay(c, Min(n, c.maxAttempts))
  }

  lemma {:induction false} FailuresSpaced(c: Config, session: string, log: seq<Event>, n: nat)
    requires LogOk(c, session, log) && n < |FailuresOf(log)|
    ensures FailuresOf(log)[n] >= FailuresOf(log)[0] + Waits(c, n)
  {
    hide RetryDelay;
    var k := |log| - 1;
    var front := log[..k];
    forall i | 0 <= i < k ensures log[..i] == front[..i] && log[i] == front[i] {}
    assert Fits(c, session, log[..k], log[k]);
    if log[k].Failed? {
      var fails := FailuresOf(front);
      if n < |fails| {
        FailuresSpaced(c, session, front, n);
      } else if n > 0 {
        FailuresSpaced(c, session, front, n - 1);
      }
    } else {
      FailuresSpaced(c, session, front, n);
    }
  }

  /**
   Counted from the latest ticket or success, failure n + 1 comes no sooner after the first than the sum of the first
   n waits, wait k being the base delay doubled min(k, maxAttempts, 8) - 1 times and capped.
   */
  lemma BackoffSpacing(c: Config, session: string, actions: seq<Action>, n: nat)
    requires ConfigOk(c) && Run(c, session, actions).Some? && n < |FailuresOf(Run(c, session, actions).value.log)|
    ensures var fails := FailuresOf(Run(c, session, actions).value.log);
            fails[n] >= fails[0] + Waits(c, n)
  {
    hide Run, FailuresOf, Waits;
    RunInv(c, session, actions);
    FailuresSpaced(c, session, Run(c, session, actions).value.log, n);
  }

  /** The waits lie between the base delay and the cap on average. */
  lemma {:induction false} WaitsAtLeastBase(c: Config, n: nat)
    requires ConfigOk(c)
    ensures c.base * n <= Waits(c, n) <= c.cap * n
  {
    hide RetryDelay;
    if n > 0 {
      WaitsAtLeastBase(c, n - 1);
      RetryDelayDoubles(c, Min(n, c.maxAttempts));
      assert c.base * n == c.base * (n - 1) + c.base && c.cap * n == c.cap * (n - 1) + c.cap;
    }
  }

  /**
   A request is accepted exactly when it is not too early, presents the standing ticket in time, and no other endpoint
   is bound.
   */
  lemma AcceptedExactly(c: Config, session: string, actions: seq<Action>, req: Request, endpoint: Endpoint, now: Time)
    requires ConfigOk(c) && Run(c, session, actions).Some? && req.session == session && req.ticket.token != ""
    ensures var m := Run(c, session, actions).value;
            Apply(c, m.s, req, endpoint, now).1 == Ok <==>
            && now >= HoldUntil(c, FailuresOf(m.log)) && TicketOf(m.log) == Some(req.ticket)
            && req.ticket.nonce != 0 && req.ticket.expires != 0 && now <= req.ticket.expires
            && (EndpointOf(m.log).Some? ==> EndpointOf(m.log) == Some(endpoint))
  {
    hide Run, RetryDelay, FailuresOf, EndpointOf, FlagOf;
    RunInv(c, session, actions);
    var m := Run(c, session, actions).value;
    if TicketOf(m.log).Some? {
      TicketAuthentic(c, session, m.log);
    }
  }

  /** The request presents the standing ticket, and in time. */
  ghost predicate PresentsTicket(log: seq<Event>, ticket: Ticket, now: Time) {
    TicketOf(log) == Some(ticket) && ticket.nonce != 0 && ticket.expires != 0 && now <= ticket.expires
  }

  /**
   Which answer a request gets: busy exactly when it is too early, otherwise unauthorized exactly without the standing
   ticket in time, and forbidden exactly with it from an endpoint other than the bound one.
   */
  lemma AnsweredExactly(c: Config, session: string, actions: seq<Action>, req: Request, endpoint: Endpoint, now: Time)
    requires ConfigOk(c) && Run(c, session, actions).Some? && req.session == session && req.ticket.token != ""
    ensures var log := Run(c, session, actions).value.log;
            var early, elsewhere := now < HoldUntil(c, FailuresOf(log)), EndpointOf(log) !in {None, Some(endpoint)};
            Apply(c, Run(c, session, actions).value.s, req, endpoint, now).1 ==
            if early then Busy
            else if !PresentsTicket(log, req.ticket, now) then Unauthorized
            else if elsewhere then Forbidden
            else Ok
  {
    hide Run, RetryDelay, FailuresOf, EndpointOf, FlagOf;
    RunInv(c, session, actions);
    var m := Run(c, session, actions).value;
    if TicketOf(m.log).Some? {
      TicketAuthentic(c, session, m.log);
    }
  }

  /**
   A datagram has its frames forwarded, up to the first that may not pass, exactly when it comes from the endpoint bound
   since the latest ticket, that ticket selected RUDP, the session has not fallen back and the engine takes it.
   */
  lemma ForwardedExactly(c: Config, session: string, actions: seq<Action>, endpoint: Endpoint, engineFails: bool,
                         frames: seq<Inner>)
    requires ConfigOk(c) && Run(c, session, actions).Some?
    ensures var m := Run(c, session, actions).value;
            var m' := DoReceive(c, m, endpoint, engineFails, frames);
            && (EndpointOf(m.log) != Some(endpoint) ==> m' == m)
            && (EndpointOf(m.log) == Some(endpoint) ==>
                  var usable := c.rollout && SelectedOf(m.log) && !FlagOf(m.log) && !engineFails;
                  m'.log == m.log + [Datagram(endpoint, if usable then AllowedPrefix(frames) else [], !usable)]
                  && m'.s.fallback == !usable)
  {
    hide Run, RetryDelay, FailuresOf, EndpointOf, FlagOf, SelectedOf, TicketOf, AllowedPrefix, LogOk;
    RunInv(c, session, actions);
  }

  lemma TicketAuthentic(c: Config, session: string, log: seq<Event>)
    requires LogOk(c, session, log) && TicketOf(log).Some?
    ensures var t := TicketOf(log).value;
            t.token == c.mac(session, t.nonce, t.expires)
  {
    hide RetryDelay;
    TicketWasIssued(log);
    var i :| 0 <= i < |log| && log[i].Issued? && log[i].ticket == TicketOf(log).value && NoTicketBetween(log, i, |log|);
    assert Fits(c, session, log[..i], log[i]);
  }

  // ---------------------------------------------------------------------------
  // The code
  // ---------------------------------------------------------------------------

  /** Forward frames in order up to the first that may not pass. */
  method ForwardFrames(frames: seq<Inner>) returns (forwarded: seq<Inner>, invalid: bool)
    ensures forwarded == AllowedPrefix(frames) && (invalid <==> |forwarded| < |frames|)
  {
    forwarded, invalid := [], false;
    var i := 0;
    assert frames[0..] == frames;
    while i < |frames|
      invariant 0 <= i <= |frames| && forwarded == frames[..i] && !invalid
      invariant AllowedPrefix(frames) == forwarded + AllowedPrefix(frames[i..])
    {
      assert frames[i..][1..] == frames[i + 1..];
      if !frames[i].allowed {
        invalid := true;
        break;
      }
      forwarded := forwarded + [frames[i]];
      i := i + 1;
    }
  }

  class UdpIngress {
    const config: Config
    var sessions: map<string, State>

    constructor (config: Config)
      requires ConfigOk(config)
      ensures this.config == config && sessions == map[]
    {
      this.config, sessions := config, map[];
    }

    method IssueBindTicket(session: string, nonce: nat, now: Time, selected: bool) returns (ticket: Option<Ticket>)
      modifies this
      ensures ticket.Some? <==>
                config.port != 0 && session in old(sessions) && config.mac(session, nonce, now + config.ttl) != ""
      ensures ticket.None? ==> sessions == old(sessions)
      ensures ticket.Some? ==>
                && ticket.value == Ticket(nonce, now + config.ttl, config.mac(session, nonce, now + config.ttl))
                && var issued := Issue(config, session, old(sessions)[session], nonce, now, selected);
                && issued.Some? && sessions == old(sessions)[session := issued.value]
    {
      if config.port == 0 { return None; }
      if session !in sessions { return None; }
      var s := sessions[session];
      var expires := now + config.ttl;
      var token := config.mac(session, nonce, expires);
      if token == "" { return None; }
      s := s.(ticket := Ticket(nonce, expires, token), issuedAt := now, attempts := 0, retryAfter := 0);
      s := s.(bound := false, endpoint := None, fallback := false, selected := selected, engine := selected);
      sessions := sessions[session := s];
      ticket := Some(s.ticket);
    }

    /** The checks in their order; a refusal other than "too early" backs off. */
    method ApplyBindRequest(req: Request, endpoint: Endpoint, now: Time) returns (code: Code)
      modifies this
      ensures req.session == "" || req.ticket.token == "" <==> code == InvalidPayload
      ensures code != InvalidPayload && req.session !in old(sessions) ==> code == Unauthorized
      ensures code == InvalidPayload || req.session !in old(sessions) || code == Busy ==> sessions == old(sessions)
      ensures code != InvalidPayload && req.session in old(sessions) ==>
        var (s, answer) := Apply(config, old(sessions)[req.session], req, endpoint, now);
        code == answer && sessions == old(sessions)[req.session := s]
    {
      if req.session == "" || req.ticket.token == "" { return InvalidPayload; }
      if req.session !in sessions { return Unauthorized; }
      var s := sessions[req.session];
      if s.retryAfter > now {
        assert sessions == sessions[req.session := s];
        return Busy;
      }
      code := Ok;
      if s.ticket.expires == 0 || s.ticket.nonce == 0 || s.ticket.token == "" {
        code := Unauthorized;
      } else if req.ticket.expires < now || s.ticket.expires < now {
        code := Unauthorized;
      } else if req.ticket.expires != s.ticket.expires || req.ticket.nonce != s.ticket.nonce {
        code := Unauthorized;
      } else {
        var expected := config.mac(req.session, req.ticket.nonce, req.ticket.expires);
        if req.ticket.token != s.ticket.token || req.ticket.token != expected {
          code := Unauthorized;
        } else if s.bound && s.endpoint != Some(endpoint) {
          code := Forbidden;
        }
      }
      if code != Ok {
        var next := Min(s.attempts + 1, config.maxAttempts);
        s := s.(attempts := next, retryAfter := now + RetryDelay(config, next));
      } else {
        s := s.(bound := true, endpoint := Some(endpoint), attempts := 0, retryAfter := 0, fallback := false);
        if s.selected && !s.engine { s := s.(engine := true); }
      }
      sessions := sessions[req.session := s];
    }

    /** The search for a session bound to the endpoint a datagram came from. */
    method FindBound(endpoint: Endpoint) returns (session: Option<string>)
      ensures session.Some? ==> session.value in sessions && BoundTo(sessions[session.value], endpoint)
      ensures session.None? ==> forall id | id in sessions :: !BoundTo(sessions[id], endpoint)
    {
      var todo := sessions.Keys;
      while todo != {}
        invariant todo <= sessions.Keys && forall id | id in sessions.Keys - todo :: !BoundTo(sessions[id], endpoint)
        decreases todo
      {
        var id :| id in todo;
        if sessions[id].bound && sessions[id].endpoint == Some(endpoint) { return Some(id); }
        todo := todo - {id};
      }
      session := None;
    }

    /** The second, locked look at the session: the frames to be forwarded, unless it has fallen back or does now. */
    method ReceiveLocked(session: string, endpoint: Endpoint, engineFails: bool) returns (usable: bool)
      modifies this
      ensures session !in old(sessions) ==> !usable && sessions == old(sessions)
      ensures session in old(sessions) ==>
                var s := old(sessions)[session];
                && usable == (BoundTo(s, endpoint) && RudpUsable(config, s) && !engineFails)
                && sessions == old(sessions)[session := s.(fallback := s.fallback || (BoundTo(s, endpoint) && !usable))]
    {
      if session !in sessions { return false; }
      var s := sessions[session];
      assert sessions == sessions[session := s.(fallback := s.fallback)];
      if !s.bound || s.endpoint != Some(endpoint) { return false; }
      if !config.rollout || !s.selected || s.fallback || !s.engine || engineFails {
        sessions := sessions[session := s.(fallback := true)];
        return false;
      }
      usable := true;
    }

    /** The third lock: a frame was refused, so the session falls back, if it still exists. */
    method MarkInvalidInner(session: string)
      modifies this
      ensures sessions == if session in old(sessions)
                          then old(sessions)[session := old(sessions)[session].(fallback := true)] else old(sessions)
    {
      if session in sessions {
        sessions := sessions[session := sessions[session].(fallback := true)];
      }
    }

    /**
     A datagram from an endpoint, undisturbed between its three locks: the session bound to the endpoint takes the
     machine's receive step and, if a frame was refused, its mark step; without such a session nothing happens.
     */
    method ReceiveRudp(endpoint: Endpoint, engineFails: bool, frames: seq<Inner>)
      returns (session: Option<string>, forwarded: seq<Inner>)
      modifies this
      ensures session.None? ==> forwarded == [] && sessions == old(sessions)
      ensures session.None? ==> forall id | id in old(sessions) :: !BoundTo(old(sessions)[id], endpoint)
      ensures session.Some? ==>
                && session.value in old(sessions) && BoundTo(old(sessions)[session.value], endpoint)
                && var before := Machine(old(sessions)[session.value], false, []);
                var m := DoReceive(config, before, endpoint, engineFails, frames);
                && |m.log| == 1 && m.log[0] == Datagram(endpoint, forwarded, m.log[0].flagged)
                && sessions == old(sessions)[session.value := if m.marking then DoFlag(m).s else m.s]
    {
      hide AllowedPrefix;
      forwarded := [];
      session := FindBound(endpoint);
      if session.None? { return; }
      ghost var s := sessions[session.value];
      var usable := ReceiveLocked(session.value, endpoint, engineFails);
      if !usable { return; }
      assert sessions == old(sessions)[session.value := s];
      var invalid;
      forwarded, invalid := ForwardFrames(frames);
      if invalid { MarkInvalidInner(session.value); }
    }
  }
}
