/** Sessions, the users behind them and the conversations they are bound to.
    Each method is one guarded operation of the runtime, taken as one step. */
module Sessions {
  import opened Basics

  const DEFAULT_USER_ID: nat := 1

  /** A live session: the user a frontend bound, and the conversation it is on. */
  datatype Session = Session(user: Option<nat>, conv: Option<nat>)

  datatype Reply = Accepted | Refused | Conflict

  datatype Action = SendText | LoadHistory(conv: nat) | NewConversation | Other

  function Effective(s: Session): nat
  {
    if s.user.Some? then s.user.value else DEFAULT_USER_ID
  }

  /** The conversation is there and belongs to the session's effective user. */
  predicate Bound(s: Session, owners: map<nat, nat>)
  {
    s.conv.Some? ==> s.conv.value in owners && owners[s.conv.value] == Effective(s)
  }

  function UserOf(sessions: map<string, Session>, key: string): nat
  {
    if key in sessions then Effective(sessions[key]) else DEFAULT_USER_ID
  }

  /** Sessions on a conversation that is gone or not theirs. */
  function Strays(sessions: map<string, Session>, owners: map<nat, nat>): set<string>
  {
    set k | k in sessions && !Bound(sessions[k], owners)
  }

  function Lookup(m: map<nat, Option<nat>>, user: nat): Option<nat>
  {
    if user in m then m[user] else None
  }

  /** Where a user lands: on what was last open, if it is still there and theirs. */
  function Landing(lastActive: map<nat, Option<nat>>, owners: map<nat, nat>, user: nat): Option<nat>
  {
    var conv := Lookup(lastActive, user);
    if conv.Some? && conv.value in owners && owners[conv.value] == user then conv else None
  }

  /** Sessions on a deleted conversation lose it. */
  function Detached(sessions: map<string, Session>, conv: nat): map<string, Session>
  {
    map k | k in sessions :: if sessions[k].conv == Some(conv) then sessions[k].(conv := None) else sessions[k]
  }

  /** Conversation numbers are never used twice. */
  ghost predicate Numbered(sessions: map<string, Session>, owners: map<nat, nat>, next: nat)
  {
    && (forall c :: c in owners ==> c < next)
    && (forall k :: k in sessions && sessions[k].conv.Some? ==> sessions[k].conv.value < next)
  }

  /** What this process knows of where users left off is what their settings say. */
  ghost predicate Saved(remembered: map<nat, Option<nat>>, lastActive: map<nat, Option<nat>>)
  {
    forall u :: u in remembered ==> Lookup(lastActive, u) == remembered[u]
  }

  /** A new conversation and one session put on it make no stray. */
  lemma OneSession(sessions: map<string, Session>, owners: map<nat, nat>, key: string, s: Session)
    requires Bound(s, owners)
    ensures Strays(sessions[key := s], owners) == Strays(sessions, owners) - {key}
  {
  }

  lemma NewRow(sessions: map<string, Session>, owners: map<nat, nat>, next: nat, user: nat)
    requires Numbered(sessions, owners, next)
    ensures Strays(sessions, owners[next := user]) == Strays(sessions, owners)
    ensures Numbered(sessions, owners[next := user], next + 1)
  {
  }

  lemma NotStray(sessions: map<string, Session>, owners: map<nat, nat>, key: string)
    requires key in sessions
    ensures key !in Strays(sessions, owners) <==> Bound(sessions[key], owners)
  {
  }

  lemma RowDeleted(sessions: map<string, Session>, owners: map<nat, nat>, conv: nat)
    ensures Strays(Detached(sessions, conv), owners - {conv}) <= Strays(sessions, owners)
    ensures forall k :: k in Detached(sessions, conv) ==> Detached(sessions, conv)[k].conv != Some(conv)
  {
  }

  // ---- What each operation makes of the state ------------------------------------

  /** Sessions, conversations, who is active, and where users left off: in their
      saved settings and as far as this process knows. */
  datatype State = State(
    sessions: map<string, Session>, owners: map<nat, nat>, next: nat, active: Option<string>,
    lastActive: map<nat, Option<nat>>, remembered: map<nat, Option<nat>>, restored: set<string>)

  /** The state, what the caller is told, and the conversation written to. */
  datatype Result = Result(state: State, reply: Reply, wroteTo: Option<nat>)

  function UserAt(sessions: map<string, Session>, key: string): Option<nat>
  {
    if key in sessions then sessions[key].user else None
  }

  function ConvAt(sessions: map<string, Session>, key: string): Option<nat>
  {
    if key in sessions then sessions[key].conv else None
  }

  predicate Allowed(s: State, key: string, conv: nat)
  {
    conv in s.owners && s.owners[conv] == UserOf(s.sessions, key)
  }

  function Got(s: State, key: string): State
  {
    if key in s.sessions then s else s.(sessions := s.sessions[key := Session(None, None)])
  }

  function Reconciled(s: State, key: string): State
  {
    if key !in s.sessions || Bound(s.sessions[key], s.owners) then s
    else s.(sessions := s.sessions[key := s.sessions[key].(conv := None)])
  }

  function Created(s: State, user: nat): State
  {
    s.(owners := s.owners[s.next := user], next := s.next + 1)
  }

  function On(s: State, key: string, conv: nat): State
  {
    s.(sessions := s.sessions[key := Session(UserAt(s.sessions, key), Some(conv))])
  }

  /** A session already on another conversation refuses. */
  predicate Elsewhere(s: State, key: string, conv: nat)
  {
    ConvAt(s.sessions, key).Some? && ConvAt(s.sessions, key) != Some(conv)
  }

  function LoadOn(s: State, key: string, conv: nat): Result
  {
    if Elsewhere(s, key, conv) then Result(s, Conflict, None) else Result(On(s, key, conv), Accepted, None)
  }

  function LoadById(s: State, key: string, conv: nat): Result
  {
    if !Allowed(s, key, conv) then Result(s, Refused, None) else LoadOn(s, key, conv)
  }

  function OpenOn(s: State, key: string, conv: Option<nat>): Result
  {
    if conv.None? then
      if key in s.sessions then Result(s, Accepted, None)
      else Result(On(Created(s, UserOf(s.sessions, key)), key, s.next), Accepted, None)
    else if !Allowed(s, key, conv.value) then Result(s, Refused, None)
    else if ConvAt(s.sessions, key) == conv then Result(s, Accepted, None)
    else LoadOn(s, key, conv.value)
  }

  function CloseOne(s: State, key: string): State
  {
    s.(sessions := s.sessions - {key}, active := if s.active == Some(key) then None else s.active)
  }

  function ResetOne(s: State, key: string): State
  {
    s.(sessions := s.sessions[key := Session(UserAt(s.sessions, key), None)])
  }

  function Remember(s: State, user: nat, conv: Option<nat>): State
  {
    if Lookup(s.remembered, user) == conv then s
    else s.(lastActive := if Lookup(s.lastActive, user) != conv then s.lastActive[user := conv] else s.lastActive,
            remembered := s.remembered[user := conv])
  }

  predicate CanLand(s: State, key: string)
  {
    var conv := Lookup(s.lastActive, UserOf(s.sessions, key));
    conv.Some? && Allowed(s, key, conv.value) && ConvAt(s.sessions, key).None?
  }

  /** Put an unbound session on its user's last conversation, if it may. */
  function Landed(s: State, key: string): State
  {
    var user := UserOf(s.sessions, key);
    var conv := Lookup(s.lastActive, user);
    if CanLand(s, key) then On(s, key, conv.value).(remembered := s.remembered[user := conv]) else s
  }

  function RestoreOnce(s: State, key: string, enabled: bool): State
  {
    if key in s.restored then s
    else
      var t := s.(restored := s.restored + {key});
      if enabled then Landed(t, key) else t
  }

  /** A session on a conversation that changes user leaves it, which is remembered
      for the old user, and lands on what the new one last had open. */
  function SwitchUser(s: State, key: string, user: Option<nat>): State
  {
    var changed := key in s.sessions && s.sessions[key].user != user;
    var left := if changed && s.sessions[key].conv.Some?
                then CloseOne(Remember(s, Effective(s.sessions[key]), s.sessions[key].conv), key) else s;
    var there := Rebound(left, key, user);
    if changed then Landed(there, key) else there
  }

  /** The session, new or not, with another user. */
  function Rebound(s: State, key: string, user: Option<nat>): State
  {
    var t := Got(s, key);
    t.(sessions := t.sessions[key := t.sessions[key].(user := user)])
  }

  /** Switching conversation closes the session and opens it again. */
  function SwitchConv(s: State, key: string, conv: nat): Result
  {
    if !Allowed(s, key, conv) then Result(s, Refused, None)
    else if key in s.sessions && s.sessions[key].conv != Some(conv)
    then LoadOn(SwitchUser(CloseOne(s, key), key, s.sessions[key].user), key, conv)
    else LoadOn(s, key, conv)
  }

  function Dropped(s: State, key: string, conv: nat): State
  {
    if !Allowed(s, key, conv) then s
    else s.(owners := s.owners - {conv}, sessions := Detached(s.sessions, conv),
            remembered := map u | u in s.remembered && s.remembered[u] != Some(conv) :: s.remembered[u])
  }

  /** An unbound session gets a new conversation of its user's. */
  function Ensured(s: State, key: string): State
  {
    if key !in s.sessions || s.sessions[key].conv.Some? then s
    else
      var t := Created(s, UserOf(s.sessions, key));
      t.(sessions := t.sessions[key := t.sessions[key].(conv := Some(s.next))])
  }

  function Inject(s: State, key: string, conv: Option<nat>): Result
  {
    if conv.Some? then
      if !Allowed(s, key, conv.value) then Result(s, Refused, None)
      else if ConvAt(s.sessions, key) == conv then Result(s, Accepted, conv)
      else LoadOn(s, key, conv.value).(wroteTo := if Elsewhere(s, key, conv.value) then None else conv)
    else
      var t := Ensured(Got(s, key), key);
      Result(t, Accepted, ConvAt(t.sessions, key))
  }

  /** The action itself, once let in. */
  function ActOn(s: State, key: string, action: Action, drives: bool): Result
  {
    match action
    case LoadHistory(conv) => SwitchConv(s, key, conv)
    case NewConversation => Result(ResetOne(s, key), Accepted, None)
    case _ =>
      var t := if drives then Ensured(s, key) else s;
      Result(t, Accepted, ConvAt(t.sessions, key))
  }

  /** Then the active user's conversation is remembered, if it is another one. */
  function Noted(s: State, prior: Option<nat>): State
  {
    if s.active.None? || ConvAt(s.sessions, s.active.value) == prior then s
    else Remember(s, UserOf(s.sessions, s.active.value), ConvAt(s.sessions, s.active.value))
  }

  function Handle(s: State, key: string, action: Action, userDriven: bool, admitted: bool, drives: bool): Result
  {
    var t := Reconciled(Got(s, key), key);
    var u := if userDriven then t.(active := Some(key)) else t;
    if !admitted || (userDriven && action.SendText? && ConvAt(u.sessions, key).None?) then Result(u, Refused, None)
    else
      var r := ActOn(u, key, action, drives);
      if userDriven then r.(state := Noted(r.state, Lookup(u.remembered, UserOf(u.sessions, key)))) else r
  }

  function Next(s: State, step: Step): State
  {
    match step
    case Get(key) => Got(s, key)
    case Open(key, conv) => OpenOn(s, key, conv).state
    case Loaded(key, conv) => LoadById(s, key, conv).state
    case Switched(key, conv) => SwitchConv(s, key, conv).state
    case Reset(key) => ResetOne(s, key)
    case Closed(key) => CloseOne(s, key)
    case Injected(key, conv) => Inject(s, key, conv).state
    case UserSet(key, user) => SwitchUser(s, key, user)
    case Deleted(key, conv) => Dropped(s, key, conv)
    case Restored(key, enabled) => RestoreOnce(s, key, enabled)
    case Handled(key, action, userDriven, admitted, drives) => Handle(s, key, action, userDriven, admitted,
      drives).state
    case RowDropped(conv) => s.(owners := s.owners - {conv})
    case RowStamped(conv, owner) => if conv in s.owners then s.(owners := s.owners[conv := owner]) else s
  }

  function After(start: State, steps: seq<Step>): State
  {
    if steps == [] then start else Next(After(start, steps[..|steps| - 1]), steps[|steps| - 1])
  }

  /** Steps are taken one after the other. */
  lemma {:induction false} AfterBoth(start: State, some: seq<Step>, more: seq<Step>)
    ensures After(start, some + more) == After(After(start, some), more)
    ensures forall step :: After(start, [step]) == Next(start, step)
  {
    hide Next;
    forall step
      ensures After(start, [step]) == Next(start, step)
    {
      assert [step][..0] == [];
    }
    if more == [] {
      assert some + more == some;
    } else {
      var n := |more| - 1;
      assert (some + more)[..|some + more| - 1] == some + more[..n];
      AfterBoth(start, some, more[..n]);
    }
  }

  /** After a restart a user's new session reopens the conversation that was remembered,
      if it is still there and theirs. */
  lemma RestartReopens(s: State, key: string, user: nat, conv: nat)
    requires Saved(s.remembered, s.lastActive) && Lookup(s.remembered, user) == Some(conv)
    requires conv in s.owners && s.owners[conv] == user
    ensures var anew := State(map[], s.owners, s.next, None, s.lastActive, map[], {});
            var t := RestoreOnce(SwitchUser(anew, key, Some(user)), key, true);
            t.sessions == map[key := Session(Some(user), Some(conv))] && Lookup(t.remembered, user) == Some(conv)
  {
    var anew := State(map[], s.owners, s.next, None, s.lastActive, map[], {});
    assert SwitchUser(anew, key, Some(user)) == anew.(sessions := map[key := Session(Some(user), None)]);
  }

  /** A user who switches to another conversation is there, no session is active, and
      the switch is not saved. */
  lemma SwitchingLeavesNoneActive()
    ensures var s := State(map["web" := Session(Some(1), Some(7))], map[7 := 1, 8 := 1], 9, Some("web"), map[],
              map[], {});
            var t := Next(s, Handled("web", LoadHistory(8), true, true, false));
            && t.sessions == map["web" := Session(Some(1), Some(8))] && t.active == None
            && t.remembered == map[] && t.lastActive == map[]
  {
    var s := State(map["web" := Session(Some(1), Some(7))], map[7 := 1, 8 := 1], 9, Some("web"), map[], map[], {});
    assert Reconciled(Got(s, "web"), "web") == s;
    ReopenedOnAnother(s);
    hide Got, Reconciled, SwitchConv;
  }

  lemma ReopenedOnAnother(s: State)
    requires s == State(map["web" := Session(Some(1), Some(7))], map[7 := 1, 8 := 1], 9, Some("web"), map[], map[], {})
    ensures SwitchConv(s, "web", 8) ==
              Result(s.(sessions := map["web" := Session(Some(1), Some(8))], active := None), Accepted, None)
  {
    var closed := CloseOne(s, "web");
    assert closed == s.(sessions := map[], active := None);
    assert SwitchUser(closed, "web", Some(1)) == closed.(sessions := map["web" := Session(Some(1), None)]);
    hide CloseOne, SwitchUser;
  }

  class Runtime {
    var sessions: map<string, Session>
    var owners: map<nat, nat>                    // the conversations table: who owns each
    var nextId: nat
    var activeSessionKey: Option<string>
    var lastActive: map<nat, Option<nat>>        // in each user's saved settings
    var remembered: map<nat, Option<nat>>        // what this process knows of that
    var restored: set<string>

    ghost predicate Valid()
      reads this
    {
      && Numbered(sessions, owners, nextId) && Saved(remembered, lastActive)
      && (activeSessionKey.Some? ==> activeSessionKey.value in sessions)
    }

    constructor (owners: map<nat, nat>, nextId: nat, lastActive: map<nat, Option<nat>>)
      requires forall c :: c in owners ==> c < nextId
      ensures Valid() && Now() == State(map[], owners, nextId, None, lastActive, map[], {})
    {
      sessions, this.owners, this.nextId := map[], owners, nextId;
      activeSessionKey, this.lastActive, remembered, restored := None, lastActive, map[], {};
    }

    ghost function Now(): State
      reads this
    {
      State(sessions, owners, nextId, activeSessionKey, lastActive, remembered, restored)
    }

    predicate AccessAllowed(key: string, conv: nat)
      reads this`sessions, this`owners
    {
      conv in owners && owners[conv] == UserOf(sessions, key)
    }

    /** The conversation the session may stay on. */
    function OnConversation(key: string): Option<nat>
      reads this`sessions, this`owners
    {
      if key in sessions && sessions[key].conv.Some? && sessions[key].conv.value in owners
         && owners[sessions[key].conv.value] == Effective(sessions[key])
      then sessions[key].conv else None
    }

    method GetSession(key: string)
      requires Valid()
      modifies this`sessions
      ensures Now() == Got(old(Now()), key)
      ensures Valid()
      ensures sessions == if key in old(sessions) then old(sessions) else old(sessions)[key := Session(None, None)]
      ensures key !in old(sessions) ==> Effective(sessions[key]) == 1
      ensures Strays(sessions, owners) <= old(Strays(sessions, owners))
    {
      if key !in sessions {
        OneSession(sessions, owners, key, Session(None, None));
        sessions := sessions[key := Session(None, None)];
      }
    }

    /** The backstop before any action: a session on a conversation that is gone
        or not its user's is taken off it, whatever came before. */
    method Reconcile(key: string)
      requires Valid() && key in sessions
      modifies this`sessions
      ensures Now() == Reconciled(old(Now()), key)
      ensures Valid()
      ensures sessions == old(sessions)[key := if Bound(old(sessions)[key], owners) then old(sessions)[key]
                                                else old(sessions)[key].(conv := None)]
      ensures Strays(sessions, owners) == old(Strays(sessions, owners)) - {key}
    {
      var s := sessions[key];
      if s.conv.None? {
        return;
      }
      if s.conv.value !in owners || owners[s.conv.value] != Effective(s) {
        OneSession(sessions, owners, key, s.(conv := None));
        sessions := sessions[key := s.(conv := None)];
      }
    }

    /** A new row, owned by the session's user. */
    method CreateConversation(user: nat) returns (conv: nat)
      requires Valid()
      modifies this`owners, this`nextId
      ensures Now() == Created(old(Now()), user)
      ensures Valid() && conv == old(nextId) && conv !in old(owners)
      ensures owners == old(owners)[conv := user] && nextId == conv + 1
      ensures Strays(sessions, owners) == old(Strays(sessions, owners))
    {
      NewRow(sessions, owners, nextId, user);
      conv := nextId;
      owners, nextId := owners[conv := user], conv + 1;
    }

    /** Put a session on a conversation; a session already on another refuses. */
    method Load(key: string, conv: nat) returns (r: Reply)
      requires Valid() && AccessAllowed(key, conv)
      modifies this`sessions
      ensures Result(Now(), r, None) == LoadOn(old(Now()), key, conv)
      ensures Valid() && r != Refused
      ensures r == Conflict <==>
                key in old(sessions) && old(sessions)[key].conv.Some? && old(sessions)[key].conv != Some(conv)
      ensures r == Conflict ==> sessions == old(sessions)
      ensures r == Accepted ==>
                sessions == old(sessions)[key := Session(if key in old(sessions) then old(sessions)[key].user
                  else None, Some(conv))]
                && Bound(sessions[key], owners)
      ensures Strays(sessions, owners) <= old(Strays(sessions, owners))
    {
      var user := None;
      if key in sessions {
        if sessions[key].conv.Some? && sessions[key].conv != Some(conv) {
          return Conflict;
        }
        user := sessions[key].user;
      }
      OneSession(sessions, owners, key, Session(user, Some(conv)));
      sessions := sessions[key := Session(user, Some(conv))];
      return Accepted;
    }

    method LoadConversation(key: string, conv: nat) returns (r: Reply)
      requires Valid()
      modifies this`sessions
      ensures Result(Now(), r, None) == LoadById(old(Now()), key, conv)
      ensures Valid() && (r == Refused <==> !old(AccessAllowed(key, conv)))
      ensures r != Accepted ==> sessions == old(sessions)
      ensures r == Accepted ==> key in sessions && sessions[key].conv == Some(conv) && Bound(sessions[key], owners)
      ensures Strays(sessions, owners) <= old(Strays(sessions, owners))
    {
      if !AccessAllowed(key, conv) {
        return Refused;
      }
      r := Load(key, conv);
    }

    /** Address a conversation, or a new one. */
    method OpenSession(key: string, conv: Option<nat>) returns (r: Reply)
      requires Valid()
      modifies this`sessions, this`owners, this`nextId
      ensures Result(Now(), r, None) == OpenOn(old(Now()), key, conv)
      ensures Valid()
      ensures r == Refused <==> conv.Some? && !old(AccessAllowed(key, conv.value))
      ensures r == Conflict <==> conv.Some? && old(AccessAllowed(key, conv.value)) && key in old(sessions)
                                 && old(sessions)[key].conv.Some? && old(sessions)[key].conv != conv
      ensures r != Accepted ==> sessions == old(sessions) && owners == old(owners)
      ensures r == Accepted && conv.Some? ==> key in sessions && sessions[key].conv == conv
      ensures r == Accepted && conv.None? && key !in old(sessions) ==>
                key in sessions && sessions[key].conv == Some(old(nextId)) && Bound(sessions[key], owners)
      ensures Strays(sessions, owners) <= old(Strays(sessions, owners))
    {
      if conv.Some? && !AccessAllowed(key, conv.value) {
        return Refused;
      }
      if key in sessions {
        if conv.None? || sessions[key].conv == conv {
          return Accepted;
        }
        if sessions[key].conv.Some? {
          return Conflict;
        }
      }
      var target;
      if conv.Some? {
        target := conv.value;
      } else {
        target := CreateConversation(UserOf(sessions, key));
      }
      r := Load(key, target);
    }

    method CloseSession(key: string) returns (existed: bool)
      requires Valid()
      modifies this`sessions, this`activeSessionKey
      ensures Now() == CloseOne(old(Now()), key)
      ensures Valid() && existed == (key in old(sessions)) && sessions == old(sessions) - {key}
      ensures activeSessionKey == if old(activeSessionKey) == Some(key) then None else old(activeSessionKey)
      ensures Strays(sessions, owners) <= old(Strays(sessions, owners))
    {
      existed := key in sessions;
      sessions := sessions - {key};
      if activeSessionKey == Some(key) {
        activeSessionKey := None;
      }
    }

    method ResetConversation(key: string)
      requires Valid()
      modifies this`sessions
      ensures Now() == ResetOne(old(Now()), key)
      ensures Valid()
      ensures sessions == old(sessions)[key := Session(if key in old(sessions) then old(sessions)[key].user
                else None, None)]
      ensures Strays(sessions, owners) <= old(Strays(sessions, owners))
    {
      var s := Session(if key in sessions then sessions[key].user else None, None);
      OneSession(sessions, owners, key, s);
      sessions := sessions[key := s];
    }

    // ---- Remembering where a user left off ----------------------------------------

    method RememberLastActive(user: nat, conv: Option<nat>)
      requires Saved(remembered, lastActive)
      modifies this`lastActive, this`remembered
      ensures Saved(remembered, lastActive)
      ensures forall u :: u != user ==> Lookup(remembered, u) == old(Lookup(remembered, u))
      ensures Now() == Remember(old(Now()), user, conv)
      ensures Lookup(remembered, user) == conv
      ensures old(Lookup(remembered, user)) != conv ==> Lookup(lastActive, user) == conv
      ensures forall u :: u != user ==> Lookup(lastActive, u) == old(Lookup(lastActive, u))
    {
      if Lookup(remembered, user) == conv {
        return;
      }
      if Lookup(lastActive, user) != conv {
        lastActive := lastActive[user := conv];
      }
      remembered := remembered[user := conv];
    }

    /** Put an unbound session on its user's last conversation, if it may. */
    method LoadLastActive(key: string) returns (loaded: bool)
      requires Valid()
      modifies this`sessions, this`remembered
      ensures Now() == Landed(old(Now()), key) && loaded == CanLand(old(Now()), key)
      ensures Valid()
      ensures var conv := Lookup(lastActive, old(UserOf(sessions, key)));
              loaded <==> conv.Some? && old(AccessAllowed(key, conv.value))
                          && !(key in old(sessions) && old(sessions)[key].conv.Some?)
      ensures !loaded ==> sessions == old(sessions) && remembered == old(remembered)
      ensures forall u :: u != old(UserOf(sessions, key)) ==> Lookup(remembered, u) == old(Lookup(remembered, u))
      ensures loaded ==>
                sessions == old(sessions)[key := Session(if key in old(sessions) then old(sessions)[key].user else None,
                                                         Lookup(lastActive, old(UserOf(sessions, key))))]
      ensures Strays(sessions, owners) <= old(Strays(sessions, owners))
    {
      var user := UserOf(sessions, key);
      var conv := Lookup(lastActive, user);
      if conv.None? || !AccessAllowed(key, conv.value) {
        return false;
      }
      if key in sessions && sessions[key].conv.Some? {
        return false;
      }
      var r := Load(key, conv.value);
      remembered := remembered[user := conv];
      return true;
    }

    method RestoreLastActive(key: string, enabled: bool) returns (loaded: bool)
      requires Valid()
      modifies this`sessions, this`remembered, this`restored
      ensures Now() == RestoreOnce(old(Now()), key, enabled)
      ensures Valid() && key in restored
      ensures loaded ==> enabled && key !in old(restored)
      ensures Strays(sessions, owners) <= old(Strays(sessions, owners))
    {
      if key in restored {
        return false;
      }
      restored := restored + {key};
      if !enabled {
        return false;
      }
      loaded := LoadLastActive(key);
    }

    // ---- Switching user and conversation ----------------------------------------------

    /** Bind the user behind a session. A session on a conversation that changes
        user leaves it and lands on what the new user last had open, if anything. */
    method SetSessionUser(key: string, user: Option<nat>)
      requires Valid()
      modifies this`sessions, this`activeSessionKey, this`lastActive, this`remembered
      ensures Now() == SwitchUser(old(Now()), key, user)
      ensures Valid() && (key !in old(sessions) ==> activeSessionKey == old(activeSessionKey))
      ensures key in sessions && sessions[key].user == user
      ensures key in old(sessions) && old(sessions)[key].user != user ==> Bound(sessions[key], owners)
      ensures key in old(sessions) && old(sessions)[key].user == user ==> sessions == old(sessions)
      ensures key in old(sessions) && old(sessions)[key].user != user ==>
                sessions[key].conv == Landing(lastActive, owners, Effective(sessions[key]))
      ensures key in old(sessions) && Effective(old(sessions)[key]) != Effective(sessions[key])
                && old(sessions)[key].conv.Some? ==>
                Lookup(remembered, Effective(old(sessions)[key])) == old(sessions)[key].conv
      ensures key !in old(sessions) ==> sessions == old(sessions)[key := Session(user, None)]
      ensures key !in old(sessions) || old(sessions)[key].user == user ==>
                remembered == old(remembered) && lastActive == old(lastActive)
      ensures forall k :: k != key ==>
                (k in sessions <==> k in old(sessions)) && (k in sessions ==> sessions[k] == old(sessions)[k])
      ensures Strays(sessions, owners) <= old(Strays(sessions, owners))
    {
      hide Strays, Remember, Landed, CloseOne, Rebound;
      var changed := key in sessions && sessions[key].user != user;
      if changed && sessions[key].conv.Some? {
        RememberLastActive(Effective(sessions[key]), sessions[key].conv);
        var existed := CloseSession(key);
      }
      Rebind(key, user);
      if changed {
        var loaded := LoadLastActive(key);
      }
    }

    /** A session without a conversation, or with this user already. */
    method Rebind(key: string, user: Option<nat>)
      requires Valid() && (key in sessions ==> sessions[key].conv.None? || sessions[key].user == user)
      modifies this`sessions
      ensures Valid() && Now() == Rebound(old(Now()), key, user)
      ensures sessions == old(sessions)[key := Session(user, ConvAt(old(sessions), key))]
      ensures Strays(sessions, owners) <= old(Strays(sessions, owners))
    {
      hide Strays;
      GetSession(key);
      if sessions[key].conv.None? {
        OneSession(sessions, owners, key, sessions[key].(user := user));
      } else {
        assert sessions[key := sessions[key].(user := user)] == sessions;
      }
      sessions := sessions[key := sessions[key].(user := user)];
    }

    /** Switch a session to a saved conversation. */
    method LoadHistory(key: string, conv: nat) returns (r: Reply)
      requires Valid()
      modifies this`sessions, this`activeSessionKey, this`lastActive, this`remembered
      ensures Result(Now(), r, None) == SwitchConv(old(Now()), key, conv)
      ensures Valid() && r == if old(AccessAllowed(key, conv)) then Accepted else Refused
      ensures r == Refused ==> sessions == old(sessions) && activeSessionKey == old(activeSessionKey)
      ensures remembered == old(remembered) && lastActive == old(lastActive)
      ensures r == Accepted ==>
                sessions == old(sessions)[key := Session(if key in old(sessions) then old(sessions)[key].user
                  else None, Some(conv))]
                && Bound(sessions[key], owners)
      ensures activeSessionKey == if r == Accepted && key in old(sessions) && old(sessions)[key].conv != Some(conv)
                                     && old(activeSessionKey) == Some(key) then None else old(activeSessionKey)
      ensures Strays(sessions, owners) <= old(Strays(sessions, owners))
    {
      if !AccessAllowed(key, conv) {
        return Refused;
      }
      if key in sessions && sessions[key].conv != Some(conv) {
        var user := sessions[key].user;
        var existed := CloseSession(key);
        SetSessionUser(key, user);
        assert sessions == old(sessions)[key := Session(user, None)];
      }
      r := Load(key, conv);
    }

    /** Delete a conversation of the session's user, and take every session off it. */
    method DeleteConversation(key: string, conv: nat) returns (deleted: bool)
      requires Valid()
      modifies this`sessions, this`owners, this`remembered
      ensures Now() == Dropped(old(Now()), key, conv)
      ensures Valid() && deleted == old(AccessAllowed(key, conv))
      ensures !deleted ==> sessions == old(sessions) && owners == old(owners) && remembered == old(remembered)
      ensures deleted ==> owners == old(owners) - {conv} && sessions == Detached(old(sessions), conv)
      ensures deleted ==>
                forall k :: k in sessions ==>
                  sessions[k] == if old(sessions)[k].conv == Some(conv) then old(sessions)[k].(conv := None)
                                 else old(sessions)[k]
      ensures deleted ==> forall u :: u in remembered ==> remembered[u] != Some(conv)
      ensures Strays(sessions, owners) <= old(Strays(sessions, owners))
    {
      if !AccessAllowed(key, conv) {
        return false;
      }
      RowDeleted(sessions, owners, conv);
      owners := owners - {conv};
      sessions := Detached(sessions, conv);
      remembered := map u | u in remembered && remembered[u] != Some(conv) :: remembered[u];
      return true;
    }

    /** Give an unbound session a new conversation of its user's. */
    method EnsureConversation(key: string)
      requires Valid() && key in sessions
      modifies this`sessions, this`owners, this`nextId
      ensures Now() == Ensured(old(Now()), key)
      ensures Valid() && key in sessions && sessions[key].conv.Some?
      ensures old(sessions)[key].conv.Some? ==> sessions == old(sessions) && owners == old(owners)
      ensures old(sessions)[key].conv.None? ==>
                sessions == old(sessions)[key := old(sessions)[key].(conv := Some(old(nextId)))]
                  && Bound(sessions[key], owners)
      ensures Strays(sessions, owners) <= old(Strays(sessions, owners))
    {
      if sessions[key].conv.None? {
        var conv := CreateConversation(UserOf(sessions, key));
        OneSession(sessions, owners, key, sessions[key].(conv := Some(conv)));
        sessions := sessions[key := sessions[key].(conv := Some(conv))];
      }
    }

    /** Append a message without driving a turn; the conversation it went to. */
    method InjectUserMessage(key: string, conv: Option<nat>) returns (r: Reply, wroteTo: Option<nat>)
      requires Valid()
      modifies this`sessions, this`owners, this`nextId
      ensures Result(Now(), r, wroteTo) == Inject(old(Now()), key, conv)
      ensures Valid()
      ensures r == Refused <==> conv.Some? && !old(AccessAllowed(key, conv.value))
      ensures r != Accepted ==> wroteTo == None
      ensures r == Accepted ==> key in sessions && wroteTo == sessions[key].conv && wroteTo.Some?
      ensures r == Accepted && (conv.Some? || key !in old(Strays(sessions, owners))) ==> Bound(sessions[key], owners)
      ensures Strays(sessions, owners) <= old(Strays(sessions, owners))
    {
      if conv.Some? {
        if !AccessAllowed(key, conv.value) {
          return Refused, None;
        }
        if key !in sessions || sessions[key].conv != conv {
          r := Load(key, conv.value);
          if r == Conflict {
            return Conflict, None;
          }
        }
      } else {
        GetSession(key);
        EnsureConversation(key);
      }
      return Accepted, sessions[key].conv;
    }

    /** One frontend action: the session is reconciled first, so what the action
        and the turn it drives write goes to a conversation of the session's user. */
    method HandleAction(key: string, action: Action, userDriven: bool, admitted: bool, drives: bool)
      returns (ok: bool, wroteTo: Option<nat>)
      requires Valid()
      modifies this
      ensures var h := Handle(old(Now()), key, action, userDriven, admitted, drives);
              Now() == h.state && ok == (h.reply == Accepted) && wroteTo == h.wroteTo
      ensures Valid() && key in sessions && key !in Strays(sessions, owners)
      ensures wroteTo.Some? ==> wroteTo.value in owners && owners[wroteTo.value] == Effective(sessions[key])
      ensures !admitted ==> !ok && wroteTo == None
      ensures ok && (action.SendText? || action.Other?) ==> wroteTo == sessions[key].conv && (drives ==> wroteTo.Some?)
      ensures ok && action.LoadHistory? ==> sessions[key].conv == Some(action.conv)
      ensures ok && action.NewConversation? ==> sessions[key].conv == None
      ensures userDriven && !action.LoadHistory? ==> activeSessionKey == Some(key)
      // Switching conversation closes and reopens the session, which leaves no
      // session active, although the user is right there.
      ensures userDriven && ok ==>
                (activeSessionKey == None <==>
                 action.LoadHistory? && (key !in old(sessions) || old(sessions)[key].conv != Some(action.conv)))
      ensures ok <==>
                && admitted && (action.LoadHistory? ==> old(AccessAllowed(key, action.conv)))
                && !(userDriven && action.SendText? && old(OnConversation(key)).None?)
      ensures !(ok && drives && (action.SendText? || action.Other?)) ==>
                owners == old(owners) && nextId == old(nextId)
      ensures !userDriven && !action.LoadHistory? ==> activeSessionKey == old(activeSessionKey)
      // So a switch is not remembered yet; anything else a user does is.
      ensures userDriven && ok && activeSessionKey == Some(key) ==>
                Lookup(remembered, Effective(sessions[key])) == sessions[key].conv
      ensures !userDriven || activeSessionKey == None ==> remembered == old(remembered) && lastActive == old(lastActive)
      ensures Strays(sessions, owners) <= old(Strays(sessions, owners))
    {
      hide Strays, ActOn, Noted, Got, Reconciled, Saved;
      Arrive(key);
      wroteTo := None;
      var prior := None;
      if userDriven {
        activeSessionKey := Some(key);
        prior := Lookup(remembered, UserOf(sessions, key));
      }
      if !admitted {
        return false, None;
      }
      if userDriven && action.SendText? && sessions[key].conv.None? {
        return false, None;
      }
      ok, wroteTo := Act(key, action, drives);
      if userDriven {
        NoteActive(prior);
      }
    }

    method Arrive(key: string)
      requires Valid()
      modifies this`sessions
      ensures Valid() && Now() == Reconciled(Got(old(Now()), key), key)
      ensures key in sessions && key !in Strays(sessions, owners)
                && Strays(sessions, owners) <= old(Strays(sessions, owners))
      ensures sessions[key].conv == old(OnConversation(key)) && UserOf(sessions, key) == old(UserOf(sessions, key))
      ensures forall c: nat :: AccessAllowed(key, c) ==>
                (sessions[key].conv == Some(c) <==> ConvAt(old(sessions), key) == Some(c))
    {
      hide Strays;
      GetSession(key);
      Reconcile(key);
      NotStray(sessions, owners, key);
    }

    /** The action itself, once let in. */
    method Act(key: string, action: Action, drives: bool) returns (ok: bool, wroteTo: Option<nat>)
      requires Valid() && key in sessions && key !in Strays(sessions, owners)
      modifies this`sessions, this`owners, this`nextId, this`activeSessionKey, this`lastActive, this`remembered
      ensures var h := ActOn(old(Now()), key, action, drives);
              Now() == h.state && ok == (h.reply == Accepted) && wroteTo == h.wroteTo
      ensures Valid() && key in sessions && key !in Strays(sessions, owners)
      ensures wroteTo.Some? ==> wroteTo.value in owners && owners[wroteTo.value] == Effective(sessions[key])
      ensures ok && (action.SendText? || action.Other?) ==> wroteTo == sessions[key].conv && (drives ==> wroteTo.Some?)
      ensures ok && action.LoadHistory? ==>
                sessions[key].conv == Some(action.conv) && old(AccessAllowed(key, action.conv))
      ensures ok && action.NewConversation? ==> sessions[key].conv == None
      ensures remembered == old(remembered) && lastActive == old(lastActive)
      ensures UserOf(sessions, key) == old(UserOf(sessions, key))
      ensures ok <==> (action.LoadHistory? ==> old(AccessAllowed(key, action.conv)))
      ensures !drives || action.LoadHistory? || action.NewConversation? ==>
                owners == old(owners) && nextId == old(nextId)
      ensures activeSessionKey == if ok && action.LoadHistory? && old(sessions)[key].conv != Some(action.conv)
                                     && old(activeSessionKey) == Some(key) then None else old(activeSessionKey)
      ensures Strays(sessions, owners) <= old(Strays(sessions, owners))
    {
      hide Strays, SwitchConv, Ensured;
      NotStray(sessions, owners, key);
      ok, wroteTo := true, None;
      match action {
        case LoadHistory(conv) =>
          var r := LoadHistory(key, conv);
          ok := r == Accepted;
        case NewConversation =>
          ResetConversation(key);
        case SendText =>
          if drives { EnsureConversation(key); }
          wroteTo := sessions[key].conv;
        case Other =>
          if drives { EnsureConversation(key); }
          wroteTo := sessions[key].conv;
      }
      NotStray(sessions, owners, key);
    }

    /** The active user's conversation is remembered, if it is another one than before. */
    method NoteActive(prior: Option<nat>)
      requires Valid()
      modifies this`lastActive, this`remembered
      ensures Now() == Noted(old(Now()), prior) && Valid()
      ensures activeSessionKey == None ==> remembered == old(remembered) && lastActive == old(lastActive)
      ensures activeSessionKey.Some? && prior == old(Lookup(remembered, UserOf(sessions, activeSessionKey.value))) ==>
                Lookup(remembered, UserOf(sessions, activeSessionKey.value))
                == ConvAt(sessions, activeSessionKey.value)
    {
      if activeSessionKey.Some? {
        var current := if activeSessionKey.value in sessions then sessions[activeSessionKey.value].conv else None;
        if current != prior {
          RememberLastActive(UserOf(sessions, activeSessionKey.value), current);
        }
      }
    }

    // ---- Changes made past the runtime -------------------------------------------------

    method DeleteRow(conv: nat)
      requires Valid()
      modifies this`owners
      ensures Now() == Next(old(Now()), RowDropped(conv))
      ensures Valid() && owners == old(owners) - {conv}
      ensures forall k :: k in Strays(sessions, owners) ==>
                k in old(Strays(sessions, owners)) || sessions[k].conv == Some(conv)
    {
      owners := owners - {conv};
    }

    method StampRow(conv: nat, user: nat)
      requires Valid()
      modifies this`owners
      ensures Now() == Next(old(Now()), RowStamped(conv, user))
      ensures Valid() && owners == if conv in old(owners) then old(owners)[conv := user] else old(owners)
      ensures forall k :: k in Strays(sessions, owners) ==>
                k in old(Strays(sessions, owners)) || sessions[k].conv == Some(conv)
    {
      if conv in owners {
        owners := owners[conv := user];
      }
    }
  }

  datatype Step =
    | Get(key: string) | Open(key: string, target: Option<nat>) | Loaded(key: string, conv: nat)
    | Switched(key: string, conv: nat) | Reset(key: string) | Closed(key: string)
    | Injected(key: string, target: Option<nat>) | UserSet(key: string, user: Option<nat>)
    | Deleted(key: string, conv: nat) | Restored(key: string, enabled: bool)
    | Handled(key: string, action: Action, userDriven: bool, admitted: bool, drives: bool)
    | RowDropped(conv: nat) | RowStamped(conv: nat, owner: nat)

  /** Made past the runtime, directly in the database. */
  predicate Outside(step: Step)
  {
    step.RowDropped? || step.RowStamped?
  }

  method Take(r: Runtime, step: Step)
    requires r.Valid()
    modifies r
    ensures r.Valid() && r.Now() == Next(old(r.Now()), step)
    ensures !Outside(step) ==> Strays(r.sessions, r.owners) <= old(Strays(r.sessions, r.owners))
    ensures step.Handled? ==> step.key !in Strays(r.sessions, r.owners)
  {
    hide Strays;
    match step {
      case Get(key) => r.GetSession(key);
      case Open(key, conv) => var reply := r.OpenSession(key, conv);
      case Loaded(key, conv) => var reply := r.LoadConversation(key, conv);
      case Switched(key, conv) => var reply := r.LoadHistory(key, conv);
      case Reset(key) => r.ResetConversation(key);
      case Closed(key) => var existed := r.CloseSession(key);
      case Injected(key, conv) =>
        var reply, wroteTo := r.InjectUserMessage(key, conv);
      case UserSet(key, user) => r.SetSessionUser(key, user);
      case Deleted(key, conv) => var deleted := r.DeleteConversation(key, conv);
      case Restored(key, enabled) => var loaded := r.RestoreLastActive(key, enabled);
      case Handled(key, action, userDriven, admitted, drives) =>
        var ok, wroteTo := r.HandleAction(key, action, userDriven, admitted, drives);
      case RowDropped(conv) => r.DeleteRow(conv);
      case RowStamped(conv, user) => r.StampRow(conv, user);
    }
  }

  /** Every run, from any conversations: as long as no row is changed past the
      runtime, each session's conversation is there and its user's own, and the
      active session is a live one. */
  method Run(owners: map<nat, nat>, next: nat, lastActive: map<nat, Option<nat>>, steps: seq<Step>) returns (r: Runtime)
    requires forall c :: c in owners ==> c < next
    ensures r.Valid() && r.Now() == After(State(map[], owners, next, None, lastActive, map[], {}), steps)
    ensures (forall i :: 0 <= i < |steps| ==> !Outside(steps[i])) ==>
              forall k :: k in r.sessions ==> Bound(r.sessions[k], r.owners)
  {
    r := new Runtime(owners, next, lastActive);
    ghost var start := r.Now();
    assert steps[..0] == [];
    for i := 0 to |steps|
      invariant r.Valid() && fresh(r) && r.Now() == After(start, steps[..i])
      invariant (forall k :: 0 <= k < i ==> !Outside(steps[k])) ==> Strays(r.sessions, r.owners) == {}
    {
      Take(r, steps[i]);
      assert steps[..i + 1][..i] == steps[..i];
    }
    assert steps[..|steps|] == steps;
    if forall i :: 0 <= i < |steps| ==> !Outside(steps[i]) {
      forall k | k in r.sessions
        ensures Bound(r.sessions[k], r.owners)
      {
        assert k !in Strays(r.sessions, r.owners);
      }
    }
  }
}
