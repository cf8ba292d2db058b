/** Decisions taken before a command runs: the blacklist and permission gate,
    whether a player argument is a linked Discord id, and the fallback when a
    requested tracking session is missing. */
module Interactions {
  import opened Wrappers
  import opened Decimal
  import opened Calendar

  // ---- run_interaction_checks ----

  /** The stored account of the invoking user. `present` is whether a record exists. */
  datatype Account = Account(present: bool, blacklisted: bool, permissions: seq<string>)

  datatype CheckResult = Proceed | UserBlacklisted | MissingPermissions

  /** The account is turned away as blacklisted. */
  predicate BlacklistApplies(account: Account, checkBlacklisted: bool) {
    account.present && checkBlacklisted && account.blacklisted
  }

  /** The required permissions are satisfied by the held ones. */
  predicate PermissionsSatisfied(required: seq<string>, held: seq<string>, allowStar: bool) {
    (allowStar && "*" in held) || exists p :: p in required && p in held
  }

  /** `run_interaction_checks`: blacklist first, then at least one of the
      required permissions (or `*` when allowed). `permissions` is None when the
      caller passes none. */
  function RunInteractionChecks(account: Account, checkBlacklisted: bool,
                                permissions: Option<seq<string>>, allowStar: bool): (r: CheckResult)
    ensures r == UserBlacklisted <==> BlacklistApplies(account, checkBlacklisted)
    ensures r == MissingPermissions <==>
              !BlacklistApplies(account, checkBlacklisted)
              && permissions.Some? && |permissions.value| > 0
              && !PermissionsSatisfied(permissions.value, account.permissions, allowStar)
  {
    DisjointIffNoCommon(permissions.GetOr([]), account.permissions);
    if BlacklistApplies(account, checkBlacklisted) then UserBlacklisted
    else if permissions.Some? && permissions.value != [] then
      if allowStar && "*" in account.permissions then Proceed
      else if (set p | p in permissions.value) * (set q | q in account.permissions) == {} then
        MissingPermissions
      else Proceed
    else Proceed
  }

  /** Python's `not set(a) & set(b)`: the two lists share no element. */
  lemma DisjointIffNoCommon(a: seq<string>, b: seq<string>)
    ensures (set p | p in a) * (set q | q in b) == {} <==> !exists p :: p in a && p in b
  {
    if exists p :: p in a && p in b {
      var p :| p in a && p in b;
      assert p in (set x | x in a) * (set y | y in b);
    }
  }

  /** Without required permissions the gate never reports missing permissions. */
  lemma NoPermissionsNeverMissing(account: Account, checkBlacklisted: bool,
                                  permissions: Option<seq<string>>, allowStar: bool)
    requires permissions.None? || permissions.value == []
    ensures RunInteractionChecks(account, checkBlacklisted, permissions, allowStar) != MissingPermissions
  {
  }

  /** An account without a record is never turned away as blacklisted. */
  lemma AbsentAccountNeverBlacklisted(account: Account, checkBlacklisted: bool,
                                      permissions: Option<seq<string>>, allowStar: bool)
    requires !account.present
    ensures RunInteractionChecks(account, checkBlacklisted, permissions, allowStar) != UserBlacklisted
  {
  }

  /** Granting more permissions never turns a passing check into a failing one. */
  lemma MorePermissionsStillPass(account: Account, extra: seq<string>, checkBlacklisted: bool,
                                 permissions: Option<seq<string>>, allowStar: bool)
    requires RunInteractionChecks(account, checkBlacklisted, permissions, allowStar) == Proceed
    ensures RunInteractionChecks(account.(permissions := account.permissions + extra),
                                 checkBlacklisted, permissions, allowStar) == Proceed
  {
    var held := account.permissions;
    if permissions.Some? && |permissions.value| > 0 && !(allowStar && "*" in held) {
      var p :| p in permissions.value && p in held;
      assert p in held + extra;
    } else if permissions.Some? && |permissions.value| > 0 {
      assert "*" in held + extra;
    }
  }

  /** Holding `*` passes any permission requirement when stars are allowed,
      unless the account is blacklisted. */
  lemma StarPassesEverything(account: Account, checkBlacklisted: bool, permissions: Option<seq<string>>)
    requires "*" in account.permissions
    requires !BlacklistApplies(account, checkBlacklisted)
    ensures RunInteractionChecks(account, checkBlacklisted, permissions, true) == Proceed
  {
  }

  // ---- fetch_player_info: linked Discord ids ----

  /** A player argument that names a linked Discord account: all digits and at
      least 16 characters long. */
  predicate IsLinkedDiscordId(player: string): (linked: bool)
    ensures |player| < 16 ==> !linked
    ensures (exists i :: 0 <= i < |player| && !IsDigit(player[i])) ==> !linked
  {
    AllDigits(player) && |player| >= 16
  }

  /** The name looked up for a player argument: a linked Discord id is replaced
      by the player linked to it, or by the empty name when there is none. */
  function ResolvePlayerArgument(player: string, linkedPlayer: nat -> Option<string>): (name: string)
    ensures !IsLinkedDiscordId(player) ==> name == player
    ensures IsLinkedDiscordId(player) ==> name == linkedPlayer(Value(player)).GetOr("")
  {
    if IsLinkedDiscordId(player) then linkedPlayer(Value(player)).GetOr("") else player
  }

  /** A number written in decimal is taken for a Discord id exactly when it is
      at least 10^15, and it is then looked up under its own value. */
  lemma DecimalIdIsLinkedId(id: nat, linkedPlayer: nat -> Option<string>)
    ensures IsLinkedDiscordId(Show(id)) <==> id >= Pow10(15)
    ensures id >= Pow10(15) ==> ResolvePlayerArgument(Show(id), linkedPlayer) == linkedPlayer(id).GetOr("")
  {
    ShowLength(id, 15);
    ValueOfShow(id);
  }

  // ---- find_dynamic_session_interaction ----

  /** A stored session baseline: the counters captured when it started. */
  datatype Snapshot = Snapshot(metrics: map<string, int>, started: Date)

  datatype SessionError = SessionNotFound(autoCreated: bool)

  predicate IsLowest(k: int, keys: set<int>) {
    k in keys && forall j :: j in keys ==> k <= j
  }

  lemma {:induction false} LowestExists(keys: set<int>)
    requires keys != {}
    ensures exists k :: IsLowest(k, keys)
    decreases |keys|
  {
    assert (forall y :: y !in keys) ==> keys == {};
    var x :| x in keys;
    var rest := keys - {x};
    if rest == {} {
      assert keys == {x};
      assert IsLowest(x, keys);
    } else {
      LowestExists(rest);
      var m :| IsLowest(m, rest);
      var k := if x < m then x else m;
      forall j | j in keys
        ensures k <= j
      {
        if j != x {
          assert j in rest;
        }
      }
      assert IsLowest(k, keys);
    }
  }

  /** `get_session`: the session with the requested id, or with no id the one
      with the lowest id; None when there is no such session. */
  function ResolveSession(sessions: map<int, Snapshot>, session: Option<int>): (r: Option<Snapshot>)
    ensures session.Some? ==> (r.Some? <==> session.value in sessions)
    ensures session.Some? && r.Some? ==> r.value == sessions[session.value]
    ensures session.None? ==> (r.None? <==> sessions == map[])
    ensures session.None? && r.Some? ==> exists k :: IsLowest(k, sessions.Keys) && r.value == sessions[k]
  {
    match session
    case Some(id) => if id in sessions then Some(sessions[id]) else None
    case None =>
      if sessions == map[] then None
      else
        LowestExists(sessions.Keys);
        var k :| IsLowest(k, sessions.Keys);
        Some(sessions[k])
  }

  /** The sessions of one player, keyed by session id. */
  class SessionManager {
    var sessions: map<int, Snapshot>

    constructor (existing: map<int, Snapshot>)
      ensures sessions == existing
    {
      sessions := existing;
    }

    method GetSession(session: Option<int>) returns (r: Option<Snapshot>)
      ensures r == ResolveSession(sessions, session)
    {
      r := ResolveSession(sessions, session);
    }

    method SessionCount() returns (n: nat)
      ensures n == |sessions|
    {
      n := |sessions|;
    }

    /** Starts session `sessionId` from the given counters; an id already in use
        is left as it is. */
    method CreateSession(sessionId: int, hypixelData: map<string, int>, today: Date) returns (created: bool)
      modifies this
      ensures created <==> sessionId !in old(sessions)
      ensures created ==> sessions == old(sessions)[sessionId := Snapshot(hypixelData, today)]
      ensures !created ==> sessions == old(sessions)
    {
      created := sessionId !in sessions;
      if created {
        sessions := sessions[sessionId := Snapshot(hypixelData, today)];
      }
    }
  }

  /** `find_dynamic_session_interaction`: the requested session if it exists;
      otherwise SessionNotFound, after starting session 1 from the current
      counters when the player has no session at all. */
  method FindDynamicSessionInteraction(manager: SessionManager, session: Option<int>,
                                       hypixelData: map<string, int>, today: Date)
    returns (r: Result<Snapshot, SessionError>)
    modifies manager
    ensures var found := ResolveSession(old(manager.sessions), session);
            && (found.Some? ==> r == Ok(found.value) && manager.sessions == old(manager.sessions))
            && (found.None? && old(manager.sessions) == map[] ==>
                  r == Err(SessionNotFound(true))
                  && manager.sessions == map[1 := Snapshot(hypixelData, today)])
            && (found.None? && old(manager.sessions) != map[] ==>
                  r == Err(SessionNotFound(false)) && manager.sessions == old(manager.sessions))
  {
    var info := manager.GetSession(session);
    if info.None? {
      var count := manager.SessionCount();
      if count == 0 {
        var _ := manager.CreateSession(1, hypixelData, today);
        return Err(SessionNotFound(true));
      }
      return Err(SessionNotFound(false));
    }
    return Ok(info.value);
  }

  /** With no id requested, a player with any session always gets one, so the
      not-found report with no id only happens to a player with no sessions. */
  lemma DynamicDefaultFindsAnySession(sessions: map<int, Snapshot>)
    requires sessions != map[]
    ensures ResolveSession(sessions, None).Some?
  {
  }

  /** After the automatic start, asking again without an id finds the new session. */
  lemma AutoCreatedSessionIsDefault(hypixelData: map<string, int>, today: Date)
    ensures ResolveSession(map[1 := Snapshot(hypixelData, today)], None)
            == Some(Snapshot(hypixelData, today))
  {
    var s := map[1 := Snapshot(hypixelData, today)];
    assert s.Keys == {1};
  }
}
