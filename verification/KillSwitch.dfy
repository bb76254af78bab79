/** The kill-switch registry of backend/app/services/risk/killswitch.py: its transitions, its
    event log, and the queries of the execution gate. */
module KillSwitches {
  import opened Prelude

  type Scope = string

  const GLOBAL: Scope := "global"

  function SymbolScope(symbol: string): Scope { "symbol:" + symbol }

  function StrategyScope(strategy: string): Scope { "strategy:" + strategy }

  /** No two scopes share a switch: neither symbols and strategies, whatever their names, nor two of a kind. */
  lemma ScopesApart(x: string, y: string)
    ensures SymbolScope(x) != GLOBAL && StrategyScope(x) != GLOBAL && SymbolScope(x) != StrategyScope(y)
    ensures SymbolScope(x) == SymbolScope(y) ==> x == y
    ensures StrategyScope(x) == StrategyScope(y) ==> x == y
  {
    assert SymbolScope(x)[1] == 'y' && StrategyScope(y)[1] == 't' && GLOBAL[0] == 'g';
    assert SymbolScope(x)[7..] == x && SymbolScope(y)[7..] == y;
    assert StrategyScope(x)[9..] == x && StrategyScope(y)[9..] == y;
  }

  datatype Level = Soft | Hard

  datatype State = Armed | Tripped | Acknowledged

  datatype Switch = Switch(
    scope: Scope, state: State, level: Option<Level>, reason: string, trippedAt: Option<real>, trippedBy: string)

  datatype Action = Trip | Acknowledge | Rearm | AutoClear

  datatype SwitchEvent = SwitchEvent(
    ts: real, scope: Scope, action: Action, level: Option<Level>, reason: string, actor: string)

  datatype Registry = Registry(switches: map<Scope, Switch>, events: seq<SwitchEvent>)

  const NEW_REGISTRY := Registry(map[], [])

  function NewSwitch(scope: Scope): Switch { Switch(scope, Armed, None, "", None, "") }

  function SwitchOf(r: Registry, scope: Scope): Switch {
    if scope in r.switches then r.switches[scope] else NewSwitch(scope)
  }

  /** A registry, and whether the call did what it was asked. */
  datatype Outcome = Outcome(registry: Registry, done: bool)

  function Log(r: Registry, sw: Switch, e: SwitchEvent): Registry {
    Registry(r.switches[sw.scope := sw], r.events + [e])
  }

  // ---- Transitions ------------------------------------------------------------------

  /** `trip`: only an armed switch trips, except that a soft one may escalate to hard. */
  function TripSwitch(r: Registry, scope: Scope, level: Level, reason: string, actor: string, ts: real): Outcome {
    var sw := SwitchOf(r, scope);
    if !sw.state.Armed? && !(sw.level == Some(Soft) && level.Hard?) then
      Outcome(r.(switches := r.switches[scope := sw]), false)
    else
      Outcome(Log(r, Switch(scope, Tripped, Some(level), reason, Some(ts), actor),
                  SwitchEvent(ts, scope, Trip, Some(level), reason, actor)), true)
  }

  /** `acknowledge`: only from tripped; otherwise it raises. */
  function AcknowledgeSwitch(r: Registry, scope: Scope, actor: string, ts: real): Outcome {
    var sw := SwitchOf(r, scope);
    if !sw.state.Tripped? then Outcome(r.(switches := r.switches[scope := sw]), false)
    else
      Outcome(Log(r, sw.(scope := scope, state := Acknowledged), SwitchEvent(ts, scope, Acknowledge, sw.level, sw.reason, actor)), true)
  }

  /** `rearm`: only from acknowledged; otherwise it raises. */
  function RearmSwitch(r: Registry, scope: Scope, actor: string, ts: real): Outcome {
    var sw := SwitchOf(r, scope);
    if !sw.state.Acknowledged? then Outcome(r.(switches := r.switches[scope := sw]), false)
    else
      Outcome(Log(r, sw.(scope := scope, state := Armed, level := None, reason := "", trippedAt := None),
                  SwitchEvent(ts, scope, Rearm, None, "", actor)), true)
  }

  /** `auto_clear`: only a soft trip nobody has acknowledged. */
  function AutoClearSwitch(r: Registry, scope: Scope, actor: string, ts: real): Outcome {
    if scope !in r.switches || !r.switches[scope].state.Tripped? || r.switches[scope].level != Some(Soft) then
      Outcome(r, false)
    else
      Outcome(Log(r, r.switches[scope].(scope := scope, state := Armed, level := None, reason := "", trippedAt := None),
                  SwitchEvent(ts, scope, AutoClear, Some(Soft), "condition resolved", actor)), true)
  }

  datatype Request =
    | TripRequest(scope: Scope, level: Level, reason: string, actor: string, ts: real)
    | AcknowledgeRequest(scope: Scope, actor: string, ts: real)
    | RearmRequest(scope: Scope, actor: string, ts: real)
    | AutoClearRequest(scope: Scope, actor: string, ts: real)

  function Serve(r: Registry, q: Request): Outcome {
    match q
    case TripRequest(scope, level, reason, actor, ts) => TripSwitch(r, scope, level, reason, actor, ts)
    case AcknowledgeRequest(scope, actor, ts) => AcknowledgeSwitch(r, scope, actor, ts)
    case RearmRequest(scope, actor, ts) => RearmSwitch(r, scope, actor, ts)
    case AutoClearRequest(scope, actor, ts) => AutoClearSwitch(r, scope, actor, ts)
  }

  function ServeAll(r: Registry, qs: seq<Request>): Registry {
    if qs == [] then r else Serve(ServeAll(r, qs[..|qs| - 1]), qs[|qs| - 1]).registry
  }

  // ---- The log tells the whole story ---------------------------------------------------

  datatype Standing = Standing(state: State, level: Option<Level>, reason: string, trippedAt: Option<real>)

  const AT_REST := Standing(Armed, None, "", None)

  function StandingOf(r: Registry, scope: Scope): Standing {
    var sw := SwitchOf(r, scope); Standing(sw.state, sw.level, sw.reason, sw.trippedAt)
  }

  /** The standing of a scope after one of its events: an acknowledgement keeps level and reason,
      a trip sets them, a re-arm and an auto-clear wipe them. */
  function Next(before: Standing, e: SwitchEvent): Standing {
    match e.action
    case Trip => Standing(Tripped, e.level, e.reason, Some(e.ts))
    case Acknowledge => before.(state := Acknowledged)
    case Rearm => AT_REST
    case AutoClear => AT_REST
  }

  /** The standing of a scope as the event log alone tells it. */
  function Replay(events: seq<SwitchEvent>, scope: Scope): Standing {
    if events == [] then AT_REST
    else
      var before, e := Replay(events[..|events| - 1], scope), events[|events| - 1];
      if e.scope != scope then before
      else
        Next(before, e)
  }

  /** An event that may follow when its scope stands at `before`. */
  predicate MayFollow(before: Standing, e: SwitchEvent) {
    match e.action
    case Trip => e.level.Some? && (before.state.Armed? || (before.level == Some(Soft) && e.level == Some(Hard)))
    case Acknowledge => before.state.Tripped? && e.level == before.level && e.reason == before.reason
    case Rearm => before.state.Acknowledged? && e.level == None
    case AutoClear => before.state.Tripped? && before.level == Some(Soft)
  }

  ghost predicate Lawful(events: seq<SwitchEvent>) {
    forall k :: 0 <= k < |events| ==> MayFollow(Replay(events[..k], events[k].scope), events[k])
  }

  ghost predicate Consistent(r: Registry) {
    && Lawful(r.events)
    && (forall scope :: scope in r.switches ==> r.switches[scope].scope == scope)
    && (forall scope :: StandingOf(r, scope) == Replay(r.events, scope))
    && (forall scope :: StandingOf(r, scope).state.Armed? <==> StandingOf(r, scope).level == None)
  }

  lemma ReplayAppend(events: seq<SwitchEvent>, e: SwitchEvent, scope: Scope)
    ensures Replay(events + [e], scope) == if e.scope == scope then Next(Replay(events, scope), e) else Replay(events, scope)
  {
    assert (events + [e])[..|events|] == events;
  }

  lemma LawfulAppend(events: seq<SwitchEvent>, e: SwitchEvent)
    requires Lawful(events) && MayFollow(Replay(events, e.scope), e)
    ensures Lawful(events + [e])
  {
    var all := events + [e];
    forall k | 0 <= k < |all|
      ensures MayFollow(Replay(all[..k], all[k].scope), all[k])
    {
      assert all[..k] == events[..k];
      if k == |events| { assert events[..k] == events; }
    }
  }

  /** One lawful event that leaves its scope where the event says, and the others alone. */
  ghost predicate Follows(r: Registry, r': Registry, e: SwitchEvent) {
    && r'.events == r.events + [e] && MayFollow(StandingOf(r, e.scope), e)
    && (forall scope :: scope in r'.switches ==> r'.switches[scope].scope == scope)
    && (forall scope :: StandingOf(r', scope)
          == if scope == e.scope then Next(StandingOf(r, scope), e) else StandingOf(r, scope))
  }

  lemma ServeFollows(r: Registry, q: Request)
    requires Consistent(r) && Serve(r, q).done
    ensures Serve(r, q).registry.events != []
    ensures var r' := Serve(r, q).registry;
            var e := r'.events[|r'.events| - 1];
            e.scope == q.scope && Follows(r, r', e)
  {
    hide Lawful, Replay;
  }

  lemma ServeRefuses(r: Registry, q: Request)
    requires Consistent(r) && !Serve(r, q).done
    ensures var r' := Serve(r, q).registry;
            && r'.events == r.events
            && (forall scope :: scope in r'.switches ==> r'.switches[scope].scope == scope)
            && (forall scope :: StandingOf(r', scope) == StandingOf(r, scope))
  {
    hide Lawful, Replay;
  }

  lemma FollowsConsistent(r: Registry, r': Registry, e: SwitchEvent)
    requires Consistent(r) && Follows(r, r', e)
    ensures Consistent(r')
  {
    hide Lawful;
    LawfulAppend(r.events, e);
    hide StandingOf;
    forall scope
      ensures StandingOf(r', scope) == Replay(r'.events, scope)
      ensures StandingOf(r', scope).state.Armed? <==> StandingOf(r', scope).level == None
    {
      ReplayAppend(r.events, e, scope);
    }
  }

  /** A request changes one scope at most, by one lawful event or by none, and the log keeps
      telling every scope's state, level, reason and time of the trip. */
  lemma ServeConsistent(r: Registry, q: Request)
    requires Consistent(r)
    ensures Consistent(Serve(r, q).registry)
    ensures forall scope :: scope != q.scope ==> StandingOf(Serve(r, q).registry, scope) == StandingOf(r, scope)
  {
    hide Serve, StandingOf, Replay, Lawful, MayFollow;
    var r' := Serve(r, q).registry;
    if Serve(r, q).done {
      ServeFollows(r, q);
      FollowsConsistent(r, r', r'.events[|r'.events| - 1]);
    } else {
      ServeRefuses(r, q);
    }
  }

  lemma {:induction false} ServeAllConsistent(qs: seq<Request>)
    ensures Consistent(ServeAll(NEW_REGISTRY, qs))
  {
    hide Consistent;
    if qs == [] {
      assert Consistent(NEW_REGISTRY) by { NewConsistent(); }
    } else {
      ServeAllConsistent(qs[..|qs| - 1]);
      ServeConsistent(ServeAll(NEW_REGISTRY, qs[..|qs| - 1]), qs[|qs| - 1]);
    }
  }

  lemma NewConsistent()
    ensures Consistent(NEW_REGISTRY)
  {
  }

  /** In every history of requests the event log reconstructs every scope, and a switch is
      armed exactly when it has no level. */
  lemma LogReconstructsEverySwitch(qs: seq<Request>, scope: Scope)
    ensures var r := ServeAll(NEW_REGISTRY, qs);
            && StandingOf(r, scope) == Replay(r.events, scope)
            && (StandingOf(r, scope).state.Armed? <==> StandingOf(r, scope).level == None)
            && Lawful(r.events)
  {
    ServeAllConsistent(qs);
  }

  function Rank(level: Option<Level>): nat {
    match level
    case None => 0
    case Some(Soft) => 1
    case Some(Hard) => 2
  }

  lemma {:induction false} ArmedHasNoLevel(events: seq<SwitchEvent>, scope: Scope)
    requires Lawful(events)
    ensures Replay(events, scope).state.Armed? <==> Replay(events, scope).level == None
  {
    if events != [] {
      var init := events[..|events| - 1];
      LawfulPrefix(events);
      ArmedHasNoLevel(init, scope);
    }
  }

  lemma LawfulPrefix(events: seq<SwitchEvent>)
    requires Lawful(events) && events != []
    ensures Lawful(events[..|events| - 1])
    ensures MayFollow(Replay(events[..|events| - 1], events[|events| - 1].scope), events[|events| - 1])
  {
    var init := events[..|events| - 1];
    forall k | 0 <= k < |init|
      ensures MayFollow(Replay(init[..k], init[k].scope), init[k])
    {
      assert init[..k] == events[..k];
    }
  }

  lemma {:induction false} LawfulUpTo(events: seq<SwitchEvent>, j: nat)
    requires Lawful(events) && j <= |events|
    ensures Lawful(events[..j])
    decreases |events|
  {
    if j < |events| {
      LawfulPrefix(events);
      LawfulUpTo(events[..|events| - 1], j);
      assert events[..|events| - 1][..j] == events[..j];
    } else {
      assert events[..j] == events;
    }
  }

  /** The scope is tripped or acknowledged after each of the first `i` to `j` events. */
  ghost predicate UnarmedThroughout(events: seq<SwitchEvent>, scope: Scope, i: nat, j: nat)
    requires i <= j <= |events|
  {
    forall k :: i <= k <= j ==> !Replay(events[..k], scope).state.Armed?
  }

  lemma OneEvent(events: seq<SwitchEvent>, scope: Scope, j: nat)
    requires 0 < j <= |events|
    ensures events[..j][..j - 1] == events[..j - 1] && events[..j][j - 1] == events[j - 1]
  {
  }

  /** As long as a scope is not re-armed its level never drops. */
  lemma {:induction false} LevelNeverDrops(events: seq<SwitchEvent>, scope: Scope, i: nat, j: nat)
    requires Lawful(events) && i <= j <= |events| && UnarmedThroughout(events, scope, i, j)
    ensures Rank(Replay(events[..i], scope).level) <= Rank(Replay(events[..j], scope).level)
    decreases j
  {
    if i < j {
      LevelNeverDrops(events, scope, i, j - 1);
      OneEvent(events, scope, j);
      var before := Replay(events[..j - 1], scope);
      assert !before.state.Armed?;
      LawfulUpTo(events, j);
      LawfulPrefix(events[..j]);
    }
  }

  /** While unarmed, being acknowledged takes an acknowledgement since it was last tripped. */
  lemma {:induction false} AcknowledgedSince(events: seq<SwitchEvent>, scope: Scope, i: nat, j: nat)
    requires i <= j <= |events| && UnarmedThroughout(events, scope, i, j)
    requires Replay(events[..i], scope).state.Tripped? && Replay(events[..j], scope).state.Acknowledged?
    ensures exists a :: i <= a < j && events[a].scope == scope && events[a].action == Acknowledge
    decreases j
  {
    if i < j {
      OneEvent(events, scope, j);
      if Replay(events[..j - 1], scope).state.Acknowledged? {
        AcknowledgedSince(events, scope, i, j - 1);
      } else {
        assert events[j - 1].action == Acknowledge;
      }
    }
  }

  lemma OnlyRearmLiftsHard(events: seq<SwitchEvent>, scope: Scope, j: nat)
    requires Lawful(events) && 0 < j <= |events|
    requires Rank(Replay(events[..j - 1], scope).level) == 2
    requires Replay(events[..j], scope).state.Armed? && !Replay(events[..j - 1], scope).state.Armed?
    ensures events[j - 1].scope == scope && events[j - 1].action == Rearm
    ensures Replay(events[..j - 1], scope).state.Acknowledged?
  {
    OneEvent(events, scope, j);
    LawfulUpTo(events, j);
    LawfulPrefix(events[..j]);
  }

  /** A hard trip is lifted only by people: between it and any later moment at which its scope
      is armed lie an acknowledgement of that scope and, after it, a re-arm of that scope. */
  lemma {:induction false} HardTripNeedsAcknowledgeThenRearm(events: seq<SwitchEvent>, scope: Scope, i: nat, j: nat)
    requires Lawful(events) && i <= j <= |events|
    requires Replay(events[..i], scope).state.Tripped? && Replay(events[..i], scope).level == Some(Hard)
    requires Replay(events[..j], scope).state.Armed?
    ensures exists a, b :: i <= a < b < j
              && events[a].scope == scope && events[a].action == Acknowledge
              && events[b].scope == scope && events[b].action == Rearm
    decreases j
  {
    assert i < j;
    if k :| i <= k < j && Replay(events[..k], scope).state.Armed? {
      HardTripNeedsAcknowledgeThenRearm(events, scope, i, k);
    } else {
      LiftedAtLast(events, scope, i, j);
    }
  }

  lemma LiftedAtLast(events: seq<SwitchEvent>, scope: Scope, i: nat, j: nat)
    requires Lawful(events) && i < j <= |events|
    requires Replay(events[..i], scope).state.Tripped? && Replay(events[..i], scope).level == Some(Hard)
    requires Replay(events[..j], scope).state.Armed? && UnarmedThroughout(events, scope, i, j - 1)
    ensures exists a, b :: i <= a < b < j
              && events[a].scope == scope && events[a].action == Acknowledge
              && events[b].scope == scope && events[b].action == Rearm
  {
    hide Replay, Lawful;
    LevelNeverDrops(events, scope, i, j - 1);
    OnlyRearmLiftsHard(events, scope, j);
    AcknowledgedSince(events, scope, i, j - 1);
  }

  // ---- The execution gate ----------------------------------------------------------------

  predicate Unarmed(r: Registry, scope: Scope) { scope in r.switches && !r.switches[scope].state.Armed? }

  predicate HardUnarmed(r: Registry, scope: Scope) { Unarmed(r, scope) && r.switches[scope].level == Some(Hard) }

  function EntryScopes(symbol: string, strategy: Option<string>): seq<Scope> {
    [GLOBAL, SymbolScope(symbol)] + if strategy.Some? && strategy.value != "" then [StrategyScope(strategy.value)] else []
  }

  predicate EntriesBlocked(r: Registry, symbol: string, strategy: Option<string>) {
    exists i :: 0 <= i < |EntryScopes(symbol, strategy)| && Unarmed(r, EntryScopes(symbol, strategy)[i])
  }

  predicate ExitsBlocked(r: Registry, symbol: string) {
    HardUnarmed(r, GLOBAL) || HardUnarmed(r, SymbolScope(symbol))
  }

  /** A hard global switch blocks every entry and every exit; a soft one never blocks an exit. */
  lemma GateFollowsLevels(r: Registry, symbol: string, strategy: Option<string>)
    ensures HardUnarmed(r, GLOBAL) ==> EntriesBlocked(r, symbol, strategy) && ExitsBlocked(r, symbol)
    ensures ExitsBlocked(r, symbol) ==> EntriesBlocked(r, symbol, strategy)
    ensures Unarmed(r, GLOBAL) || Unarmed(r, SymbolScope(symbol)) ==> EntriesBlocked(r, symbol, strategy)
  {
    var scopes := EntryScopes(symbol, strategy);
    assert scopes[0] == GLOBAL && scopes[1] == SymbolScope(symbol);
  }

  /** An entry is blocked exactly when the global switch, the switch of its symbol, or that of its strategy,
      if it has one, is not armed; an exit exactly when the global switch or that of its symbol is hard. */
  lemma BlockedExactly(r: Registry, symbol: string, strategy: Option<string>)
    ensures EntriesBlocked(r, symbol, strategy) <==>
              || !SwitchOf(r, GLOBAL).state.Armed? || !SwitchOf(r, SymbolScope(symbol)).state.Armed?
              || (strategy.Some? && strategy.value != "" && !SwitchOf(r, StrategyScope(strategy.value)).state.Armed?)
    ensures ExitsBlocked(r, symbol) <==>
              var global, own := SwitchOf(r, GLOBAL), SwitchOf(r, SymbolScope(symbol));
              (!global.state.Armed? && global.level == Some(Hard)) || (!own.state.Armed? && own.level == Some(Hard))
  {
    var scopes := EntryScopes(symbol, strategy);
    assert scopes[0] == GLOBAL && scopes[1] == SymbolScope(symbol);
    assert |scopes| == 3 ==> scopes[2] == StrategyScope(strategy.value);
  }

  // ---- The registry object -----------------------------------------------------------------

  class KillSwitchRegistry {
    var switches: map<Scope, Switch>
    var events: seq<SwitchEvent>

    function View(): Registry
      reads this
    {
      Registry(switches, events)
    }

    constructor ()
      ensures View() == NEW_REGISTRY
    {
      switches, events := map[], [];
    }

    /** `setdefault`: the switch of the scope, created armed on first use. */
    method GetSwitch(scope: Scope) returns (sw: Switch)
      modifies this
      ensures sw == SwitchOf(old(View()), scope)
      ensures View() == old(View()).(switches := old(switches)[scope := sw])
    {
      if scope !in switches {
        switches := switches[scope := NewSwitch(scope)];
      }
      sw := switches[scope];
      assert switches == old(switches)[scope := sw];
    }

    /** Trips the switch; `fired` is whether the hook `on_trip` is to be called. */
    method TripScope(scope: Scope, level: Level, reason: string, actor: string, ts: real) returns (fired: bool)
      modifies this
      ensures Outcome(View(), fired) == TripSwitch(old(View()), scope, level, reason, actor, ts)
    {
      var sw := GetSwitch(scope);
      if sw.state != Armed && !(sw.level == Some(Soft) && level == Hard) {
        return false;
      }
      switches := switches[scope := Switch(scope, Tripped, Some(level), reason, Some(ts), actor)];
      events := events + [SwitchEvent(ts, scope, Trip, Some(level), reason, actor)];
      return true;
    }

    method AcknowledgeScope(scope: Scope, actor: string, ts: real) returns (done: bool)
      modifies this
      ensures Outcome(View(), done) == AcknowledgeSwitch(old(View()), scope, actor, ts)
    {
      var sw := GetSwitch(scope);
      if sw.state != Tripped { return false; }
      switches := switches[scope := sw.(scope := scope, state := Acknowledged)];
      events := events + [SwitchEvent(ts, scope, Acknowledge, sw.level, sw.reason, actor)];
      return true;
    }

    method RearmScope(scope: Scope, actor: string, ts: real) returns (done: bool)
      modifies this
      ensures Outcome(View(), done) == RearmSwitch(old(View()), scope, actor, ts)
    {
      var sw := GetSwitch(scope);
      if sw.state != Acknowledged { return false; }
      switches := switches[scope := sw.(scope := scope, state := Armed, level := None, reason := "", trippedAt := None)];
      events := events + [SwitchEvent(ts, scope, Rearm, None, "", actor)];
      return true;
    }

    method AutoClearScope(scope: Scope, actor: string, ts: real) returns (done: bool)
      modifies this
      ensures Outcome(View(), done) == AutoClearSwitch(old(View()), scope, actor, ts)
    {
      if scope !in switches || switches[scope].state != Tripped || switches[scope].level != Some(Soft) {
        return false;
      }
      var sw := switches[scope];
      switches := switches[scope := sw.(scope := scope, state := Armed, level := None, reason := "", trippedAt := None)];
      events := events + [SwitchEvent(ts, scope, AutoClear, Some(Soft), "condition resolved", actor)];
      return true;
    }

    /** The first unarmed switch among the scopes of an entry, if there is one. */
    method FirstBlockingEntry(symbol: string, strategy: Option<string>) returns (hit: Option<Switch>)
      ensures hit.Some? <==> EntriesBlocked(View(), symbol, strategy)
      ensures var scopes := EntryScopes(symbol, strategy);
              hit.Some? ==> exists i :: 0 <= i < |scopes| && Unarmed(View(), scopes[i]) && hit.value == switches[scopes[i]]
                                        && forall k :: 0 <= k < i ==> !Unarmed(View(), scopes[k])
    {
      var scopes := EntryScopes(symbol, strategy);
      for i := 0 to |scopes|
        invariant forall k :: 0 <= k < i ==> !Unarmed(View(), scopes[k])
      {
        if scopes[i] in switches && switches[scopes[i]].state != Armed {
          assert Unarmed(View(), EntryScopes(symbol, strategy)[i]);
          return Some(switches[scopes[i]]);
        }
      }
      return None;
    }

    /** The first hard unarmed switch among the scopes of an exit, if there is one. */
    method FirstBlockingExit(symbol: string) returns (hit: Option<Switch>)
      ensures hit.Some? <==> ExitsBlocked(View(), symbol)
      ensures hit.Some? ==> hit.value == switches[if HardUnarmed(View(), GLOBAL) then GLOBAL else SymbolScope(symbol)]
    {
      var scopes := [GLOBAL, SymbolScope(symbol)];
      assert scopes[0] == GLOBAL && scopes[1] == SymbolScope(symbol);
      for i := 0 to |scopes|
        invariant forall k :: 0 <= k < i ==> !HardUnarmed(View(), scopes[k])
      {
        if scopes[i] in switches && switches[scopes[i]].state != Armed && switches[scopes[i]].level == Some(Hard) {
          assert i == 1 ==> !HardUnarmed(View(), scopes[0]);
          return Some(switches[scopes[i]]);
        }
      }
      return None;
    }
  }
}
