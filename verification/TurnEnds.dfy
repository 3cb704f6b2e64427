/** What happens in a drive, in order: what may follow what, when the model is asked
    again, how often, how often a tool runs, and that the turn is ended. */
module TurnEnds {
  import opened Basics
  import opened TurnLoop

  // ---- The log of a drive ----------------------------------------------------------

  /** The model was asked and replied with text. */
  predicate AskedText(w: World, e: Event)
  {
    e.Asked? && w.reply(e.t).Text?
  }

  predicate Enacts(e: Event)
  {
    e.Ran? || e.Says? || e.LastSays? || e.Leaves?
  }

  /** A model call or an action that raised. */
  predicate Raises(w: World, e: Event)
  {
    (e.Asked? && w.reply(e.t).NoReply?) || (Enacts(e) && w.outcome(e.t).Raised?)
  }

  /** It raised, or the turn is to be driven again. */
  predicate Halts(w: World, e: Event)
  {
    Raises(w, e) || e.Redriven? || (Enacts(e) && w.restartRequested(e.t + 1))
  }

  /** Where the agent goes on although it had said its text. */
  predicate Resumes(e: Event)
  {
    e.Heard? || e.Ordered? || e.SentBack? || e.Lost?
  }

  /** What may come next: nothing after a halt; after a text reply its saying, the last
      words or the end; after a text was said only what has the agent go on, or the end,
      and only the end if saying it failed; nothing but the end after the last words and
      after the end, which the last words may precede again if it succeeded. */
  predicate MayFollow(w: World, e: Event, f: Event)
  {
    && !Halts(w, e)
    && match e
       case Asked(t) => w.reply(t).Text? ==> f.Says? || f.LastSays? || f.Leaves?
       case Says(t) =>
         f.Leaves? || (w.outcome(t).Done? && (Resumes(f) || f.Redriven? || f.LastSays?))
       case LastSays(_) => f.Leaves?
       case Leaves(t) => f.Leaves? || (w.outcome(t).Done? && f.LastSays?)
       case Lost(_) => f.Asked?
       case _ => true
  }

  /** The world says so. The model is asked only in a pass that began with the turn the
      agent's and not cancelled, and unless it was cancelled or a call queued since; a
      tool is run and a text said only if not cancelled just before, and last words only
      if the agent held the turn. */
  predicate Truthful(w: World, e: Event)
  {
    match e
    case Asked(t) =>
      && t >= 6 && !w.cancelled(t - 6) && w.agentHasPriority(t - 5) && !w.cancelled(t - 3) && w.forced(t - 2).None?
    case Heard(t) => w.queued(t) != []
    case Ordered(t) => w.forced(t).Some?
    case SentBack(t) => w.verdict(t).SendBack? || w.verdict(t) == RequireTool(true)
    case Lost(t) => !w.agentHasPriority(t)
    case Redriven(t) => w.verdict(t).Redrive?
    case Ran(t, _) => t > 0 && !w.cancelled(t - 1)
    case Says(t) => t > 0 && !w.cancelled(t - 1)
    case LastSays(t) =>
      || (t >= 4 && !w.cancelled(t - 2) && w.agentHasPriority(t - 4))
      || (t >= 5 && !w.cancelled(t - 3) && w.agentHasPriority(t - 5))
    case Leaves(_) => true
  }

  /** Where the row is said to come from is on record. */
  predicate OnRecord(o: Origin, log: seq<Event>)
  {
    match o
    case OfReply(r, _) => Asked(r) in log
    case SpokenBy(r) => Asked(r) in log
    case Forced(t) => Ordered(t) in log
    case Message(t, _) => Heard(t) in log
    case Note(t) => SentBack(t) in log
    case LastWords(t) => LastSays(t + 1) in log
    case Answer => true
  }

  ghost predicate Ascends(log: seq<Event>)
  {
    forall i, j :: 0 <= i < j < |log| ==> log[i].t < log[j].t
  }

  ghost predicate Linked(w: World, log: seq<Event>)
  {
    forall i :: 0 <= i < |log| - 1 ==> MayFollow(w, log[i], log[i + 1])
  }

  ghost predicate LogOk(w: World, s: State)
  {
    && Ascends(s.log) && Linked(w, s.log)
    && (forall e :: e in s.log ==> e.t < s.asked && Truthful(w, e))
    && forall o :: o in s.origins ==> OnRecord(o, s.log)
  }

  /** `f` may come next. */
  predicate OpenTo(w: World, log: seq<Event>, f: Event)
  {
    log == [] || MayFollow(w, log[|log| - 1], f)
  }

  predicate Crashed(w: World, log: seq<Event>)
  {
    log != [] && Raises(w, log[|log| - 1])
  }

  /** The next pass may ask the model, unless the last thing done was to say a text,
      which then is final; pending calls are of a reply. */
  ghost predicate Ready(w: World, s: State)
  {
    && (s.pending != [] ==> Asked(s.reply) in s.log)
    && (s.log != [] ==>
          var e := s.log[|s.log| - 1];
          && !Halts(w, e) && !AskedText(w, e) && !e.Lost? && !e.LastSays? && !e.Leaves?
          && (e.Says? ==> w.outcome(e.t).Done? && s.final.Some? && s.pending == []))
  }

  lemma NotedKeepsLog(w: World, s: State, t: State, e: Event)
    requires LogOk(w, s) && t.log == s.log + [e] && t.origins == s.origins && s.asked <= e.t < t.asked
    requires Truthful(w, e) && OpenTo(w, s.log, e)
    ensures LogOk(w, t) && e in t.log && t.log[|t.log| - 1] == e
  {
    hide Truthful, MayFollow;
    assert t.log[|s.log|] == e;
    assert forall i :: 0 <= i < |s.log| ==> t.log[i] == s.log[i];
    forall o | o in t.origins
      ensures OnRecord(o, t.log)
    {
      assert OnRecord(o, s.log);
    }
  }

  lemma SameLog(w: World, s: State, t: State)
    requires LogOk(w, s) && t.log == s.log && t.origins == s.origins && s.asked <= t.asked
    ensures LogOk(w, t)
  {
    hide Truthful, MayFollow, OnRecord;
  }

  lemma RecordedKeepsLog(w: World, s: State, row: Row, o: Origin)
    requires LogOk(w, s) && OnRecord(o, s.log)
    ensures LogOk(w, Recorded(s, row, o))
  {
    hide Truthful, MayFollow;
  }

  lemma {:induction false} RecordedAllKeepsLog(w: World, s: State, t: nat, texts: seq<string>)
    requires LogOk(w, s) && Heard(t) in s.log
    ensures var u := RecordedAll(s, t, texts);
            LogOk(w, u) && u.log == s.log && u.pending == s.pending && u.asked == s.asked
  {
    hide LogOk;
    if texts != [] {
      var n := |texts| - 1;
      RecordedAllKeepsLog(w, s, t, texts[..n]);
      RecordedKeepsLog(w, RecordedAll(s, t, texts[..n]), User(texts[n]), Message(t, n));
    }
  }

  lemma DrainedKeepsLog(w: World, s: State)
    requires LogOk(w, s) && Ready(w, s)
    ensures LogOk(w, Drained(w, s)) && Ready(w, Drained(w, s))
    ensures var t := Drained(w, s);
            t.pending == s.pending && t.asked == if s.pending == [] then s.asked + 1 else s.asked
  {
    hide LogOk, RecordedAll;
    if s.pending == [] {
      SameLog(w, s, s.(asked := s.asked + 1));
      if w.queued(s.asked) != [] {
        var t := Noted(s.(asked := s.asked + 1), Heard(s.asked));
        NotedKeepsLog(w, s, t, Heard(s.asked));
        RecordedAllKeepsLog(w, t, s.asked, w.queued(s.asked));
        var u := RecordedAll(t, s.asked, w.queued(s.asked));
        SameLog(w, u, u.(final := None));
      }
    }
  }

  predicate NotSaid(log: seq<Event>)
  {
    log == [] || !log[|log| - 1].Says?
  }

  /** The choice is on record, and the action may be carried out. */
  ghost predicate ChoiceLogged(w: World, c: Choice)
  {
    && LogOk(w, c.state) && OnRecord(c.origin, c.state.log)
    && match c.action
       case Raise => Crashed(w, c.state.log)
       case SendText(_) =>
         && c.state.final.Some? && c.state.pending == []
         && c.state.log != [] && AskedText(w, c.state.log[|c.state.log| - 1])
       case EndTurn => Ready(w, c.state) && c.state.pending == []
       case CallTool(_, _) => Ready(w, c.state) && NotSaid(c.state.log)
       case Nothing => Ready(w, c.state)
  }

  /** The state a pass that chooses now would have begun in. */
  predicate Begins(w: World, s: State)
  {
    s.pending == [] ==> s.asked >= 3 && !w.cancelled(s.asked - 3) && w.agentHasPriority(s.asked - 2)
  }

  lemma RepliedKeepsLog(w: World, s: State)
    requires LogOk(w, s) && s.pending == [] && Truthful(w, Asked(s.asked)) && OpenTo(w, s.log, Asked(s.asked))
    ensures ChoiceLogged(w, Replied(w, s))
  {
    var c := Replied(w, s);
    var t := Noted(s.(asked := s.asked + 1), Asked(s.asked));
    NotedKeepsLog(w, s, t, Asked(s.asked));
    SameLog(w, t, c.state);
    hide LogOk, Truthful;
    assert c.state.log[|c.state.log| - 1] == Asked(s.asked);
  }

  lemma PoppedKeepsLog(w: World, s: State)
    requires LogOk(w, s) && Ready(w, s) && s.pending != []
    ensures ChoiceLogged(w, Popped(s))
  {
    SameLog(w, s, Popped(s).state);
    hide LogOk, Halts;
  }

  lemma ChosenKeepsLog(w: World, s: State)
    requires LogOk(w, s) && Ready(w, s) && Begins(w, s)
    ensures ChoiceLogged(w, Chosen(w, s))
  {
    hide LogOk, Replied, Popped, ChoiceLogged, Ready, Begins, Truthful, OpenTo;
    var t := s.asked;
    WaitingKeepsLog(w, s);
    if w.cancelled(t) {
    } else if s.pending != [] {
      PoppedKeepsLog(w, s.(asked := t + 1));
    } else if w.forced(t + 1).Some? {
      OrderedKeepsLog(w, s, t + 1);
    } else if s.final.None? {
      AskingKeepsLog(w, s);
    } else if !w.agentHasPriority(t + 2) {
      LostKeepsLog(w, s);
    }
  }

  lemma AskingKeepsLog(w: World, s: State)
    requires LogOk(w, s) && Ready(w, s) && Begins(w, s)
    requires s.pending == [] && !w.cancelled(s.asked) && w.forced(s.asked + 1).None? && s.final.None?
    ensures ChoiceLogged(w, Replied(w, s.(asked := s.asked + 3)))
  {
    SameLog(w, s, s.(asked := s.asked + 3));
    hide LogOk, Replied, ChoiceLogged;
    RepliedKeepsLog(w, s.(asked := s.asked + 3));
  }

  lemma WaitingKeepsLog(w: World, s: State)
    requires LogOk(w, s) && Ready(w, s)
    ensures LogOk(w, s.(asked := s.asked + 1)) && Ready(w, s.(asked := s.asked + 1))
    ensures ChoiceLogged(w, Choice(Nothing, Answer, s.(asked := s.asked + 1)))
    ensures s.pending == [] ==> ChoiceLogged(w, Choice(EndTurn, Answer, s.(asked := s.asked + 3)))
  {
    SameLog(w, s, s.(asked := s.asked + 1));
    SameLog(w, s, s.(asked := s.asked + 3));
    hide LogOk;
  }

  lemma OrderedKeepsLog(w: World, s: State, t: nat)
    requires LogOk(w, s) && Ready(w, s) && t == s.asked + 1 && s.pending == [] && w.forced(t).Some?
    ensures ChoiceLogged(w, Choice(CallTool(w.forced(t).value, None), Forced(t),
                                   Noted(s.(asked := t + 1), Ordered(t))))
  {
    NotedKeepsLog(w, s, Noted(s.(asked := t + 1), Ordered(t)), Ordered(t));
    hide LogOk;
  }

  lemma LostKeepsLog(w: World, s: State)
    requires LogOk(w, s) && Ready(w, s) && Begins(w, s)
    requires var t := s.asked;
             s.pending == [] && !w.cancelled(t) && w.forced(t + 1).None? && !w.agentHasPriority(t + 2)
    ensures ChoiceLogged(w, Replied(w, Noted(s.(asked := s.asked + 3), Lost(s.asked + 2))))
  {
    var lost := Noted(s.(asked := s.asked + 3), Lost(s.asked + 2));
    NotedKeepsLog(w, s, lost, Lost(s.asked + 2));
    hide LogOk, Replied, ChoiceLogged;
    RepliedKeepsLog(w, lost);
  }

  /** What the end of a pass leaves open: going on, the wrap-up, or only the end. */
  ghost predicate PassLogged(w: World, p: Passed)
  {
    && LogOk(w, p.state) && (p.exit == Crash <==> Crashed(w, p.state.log))
    && (p.exit == GoOn ==> Ready(w, p.state))
    && (p.exit == GoOn || p.exit == Stop ==> OpenTo(w, p.state.log, LastSays(0)))
    && (p.exit == GoOn || p.exit == Stop || p.exit == Fail ==> OpenTo(w, p.state.log, Leaves(0)))
  }

  lemma LeftKeepsLog(w: World, s: State)
    requires LogOk(w, s) && Ready(w, s) && s.pending == []
    ensures PassLogged(w, Left(w, s))
  {
    hide LogOk, Strip, Vetted, GateNow, Truthful;
    var t := Vetted(w, s);
    VettedKeepsLog(w, s);
    var u := Noted(t.(asked := t.asked + 1), Leaves(t.asked));
    if GateNow(w, s) == LetGo {
      assert Truthful(w, Leaves(t.asked)) by { LeavesIsTruthful(w, t.asked); }
      NotedKeepsLog(w, t, u, Leaves(t.asked));
      SameLog(w, u, u.(asked := u.asked + 1));
    }
  }

  lemma LeavesIsTruthful(w: World, t: nat)
    ensures Truthful(w, Leaves(t))
  {
  }

  lemma VettedKeepsLog(w: World, s: State)
    requires LogOk(w, s) && Ready(w, s) && s.pending == []
    ensures var t := Vetted(w, s);
            && LogOk(w, t) && t.pending == []
            && (GateNow(w, s) != RedriveTurn ==> Ready(w, t)) && !Crashed(w, t.log)
  {
    hide LogOk, Strip;
    if s.fires < DOORMAN_FIRE_LIMIT {
      var v := w.verdict(s.asked);
      var u := s.(asked := s.asked + 1);
      if v.Redrive? {
        NotedKeepsLog(w, s, Noted(u, Redriven(s.asked)), Redriven(s.asked));
      } else if GateOf(v) == Again {
        var back := Noted(u.(fires := s.fires + 1, final := None), SentBack(s.asked));
        NotedKeepsLog(w, s, back, SentBack(s.asked));
        if v.SendBack? { RecordedKeepsLog(w, back, User(Strip(v.note)), Note(s.asked)); }
      } else {
        SameLog(w, s, Vetted(w, s));
      }
    }
  }

  lemma TriedKeepsLog(w: World, limits: map<string, int>, s: State, call: ToolCall, lead: Option<string>, o: Origin)
    requires LogOk(w, s) && Ready(w, s) && OnRecord(o, s.log) && NotSaid(s.log)
    requires s.asked > 0 && !w.cancelled(s.asked - 1)
    ensures PassLogged(w, Tried(w, limits, s, call, lead, o))
  {
    hide LogOk, Ready, PassLogged, Absorbed, Enacted, Refused, OnRecord, NotSaid, AfterEnact;
    var t := Enacted(limits, s, call.name);
    EnactedKeepsLog(w, limits, s, call.name, o);
    if Refused(limits, s, call) {
      AbsorbedKeepsLog(w, s, call, lead, o);
      StillReady(w, s, Absorbed(s, call, lead, o));
    } else {
      AbsorbedKeepsLog(w, t, call, lead, o);
      RanIsLogged(w, t, call.name);
      RanIsLogged(w, Absorbed(t, call, lead, o), call.name);
    }
  }

  lemma StillReady(w: World, s: State, t: State)
    requires LogOk(w, t) && Ready(w, s) && t.log == s.log && t.pending == s.pending && t.final == s.final
    requires t.reply == s.reply
    ensures PassLogged(w, Passed(t, GoOn))
  {
    hide LogOk;
  }

  lemma RanIsLogged(w: World, t: State, name: string)
    requires LogOk(w, t) && t.asked > 0 && t.log != [] && t.log[|t.log| - 1] == Ran(t.asked - 1, name)
    requires t.pending != [] ==> Asked(t.reply) in t.log
    ensures if w.outcome(t.asked - 1).Raised? then PassLogged(w, Passed(t, Crash))
            else PassLogged(w, AfterEnact(w, t, Done, GoOn, GoOn))
  {
    hide LogOk, OpenTo, Crashed, Ready;
    SameLog(w, t, t.(asked := t.asked + 1));
    RanIsOpen(w, t);
    RanIsOpen(w, t.(asked := t.asked + 1));
  }

  lemma RanIsOpen(w: World, t: State)
    requires t.log != [] && t.log[|t.log| - 1].Ran? && (t.pending != [] ==> Asked(t.reply) in t.log)
    ensures var n := t.log[|t.log| - 1].t;
            && (Crashed(w, t.log) <==> w.outcome(n).Raised?)
            && (!w.outcome(n).Raised? && !w.restartRequested(n + 1) ==>
                  Ready(w, t) && OpenTo(w, t.log, LastSays(0)) && OpenTo(w, t.log, Leaves(0)))
  {
  }

  lemma RanMayFollow(w: World, s: State, name: string)
    requires Ready(w, s) && NotSaid(s.log) && s.asked > 0 && !w.cancelled(s.asked - 1)
    ensures Truthful(w, Ran(s.asked, name)) && OpenTo(w, s.log, Ran(s.asked, name))
  {
  }

  lemma EnactedKeepsLog(w: World, limits: map<string, int>, s: State, name: string, o: Origin)
    requires LogOk(w, s) && Ready(w, s) && OnRecord(o, s.log) && NotSaid(s.log)
    requires s.asked > 0 && !w.cancelled(s.asked - 1)
    ensures var t := Enacted(limits, s, name);
            && LogOk(w, t) && OnRecord(o, t.log) && t.asked == s.asked + 1 && t.log == s.log + [Ran(s.asked, name)]
            && (t.pending != [] ==> Asked(t.reply) in t.log)
  {
    RanMayFollow(w, s, name);
    hide LogOk, Truthful, OpenTo;
    NotedKeepsLog(w, s, Enacted(limits, s, name), Ran(s.asked, name));
  }

  lemma AbsorbedKeepsLog(w: World, s: State, call: ToolCall, lead: Option<string>, o: Origin)
    requires LogOk(w, s) && OnRecord(o, s.log)
    ensures var t := Absorbed(s, call, lead, o);
            && LogOk(w, t) && t.log == s.log && t.pending == s.pending && t.final == s.final && t.reply == s.reply
            && t.asked == s.asked
  {
    hide Truthful, MayFollow;
  }

  lemma SpokenKeepsLog(w: World, s: State, text: string, o: Origin)
    requires ChoiceLogged(w, Choice(SendText(text), o, s)) && s.asked > 0 && !w.cancelled(s.asked - 1)
    ensures PassLogged(w, Spoken(w, s, text, o))
  {
    hide LogOk;
    var u := Noted(s.(asked := s.asked + 1), Says(s.asked));
    NotedKeepsLog(w, s, u, Says(s.asked));
    RecordedKeepsLog(w, u, Said(text), o);
    var v := Recorded(u, Said(text), o);
    SameLog(w, v, v.(asked := v.asked + 1));
  }

  lemma PassKeepsLog(w: World, limits: map<string, int>, s: State)
    requires LogOk(w, s) && Ready(w, s) && s.asked >= 2 && !w.cancelled(s.asked - 2) && w.agentHasPriority(s.asked - 1)
    ensures PassLogged(w, PassOf(w, limits, s))
  {
    hide LogOk, Ready, Drained, Chosen, Acted, ChoiceLogged, PassLogged;
    DrainedKeepsLog(w, s);
    var t := Drained(w, s);
    ChosenKeepsLog(w, t);
    var c := Chosen(w, t);
    ChoiceLaterIsLogged(w, c);
    if !c.action.Nothing? && !c.action.Raise? && !w.cancelled(c.state.asked) {
      ActedKeepsLog(w, limits, Later(c.state, 1), c.action, c.origin);
    }
  }

  lemma ChoiceLaterIsLogged(w: World, c: Choice)
    requires ChoiceLogged(w, c)
    ensures ChoiceLogged(w, Choice(c.action, c.origin, Later(c.state, 1)))
    ensures c.action.Nothing? ==> PassLogged(w, Passed(c.state, Stop))
    ensures c.action.Raise? ==> PassLogged(w, Passed(c.state, Crash))
    ensures !c.action.Raise? ==> PassLogged(w, Passed(Later(c.state, 1), Stop))
  {
    SameLog(w, c.state, Later(c.state, 1));
    hide LogOk;
  }

  lemma ActedKeepsLog(w: World, limits: map<string, int>, s: State, action: Action, o: Origin)
    requires ChoiceLogged(w, Choice(action, o, s)) && s.asked > 0 && !w.cancelled(s.asked - 1)
    requires !action.Nothing? && !action.Raise?
    ensures PassLogged(w, Acted(w, limits, s, action, o))
  {
    hide LogOk, Left, Spoken, Tried, Ready, OnRecord, PassLogged;
    match action
    case EndTurn => LeftKeepsLog(w, s);
    case SendText(text) => SpokenKeepsLog(w, s, text, o);
    case CallTool(call, lead) => TriedKeepsLog(w, limits, s, call, lead, o);
  }

  lemma ReadyIsOpen(w: World, s: State, n: nat)
    requires LogOk(w, s) && Ready(w, s)
    ensures LogOk(w, Later(s, n)) && Ready(w, Later(s, n))
    ensures PassLogged(w, Passed(s, GoOn)) && PassLogged(w, Passed(Later(s, n), GoOn))
  {
    SameLog(w, s, Later(s, n));
    hide LogOk;
  }

  lemma {:induction false} PassesKeepLog(w: World, limits: map<string, int>, s: State, n: nat)
    requires LogOk(w, s) && Ready(w, s)
    ensures PassLogged(w, Passes(w, limits, s, n))
    decreases n
  {
    hide LogOk, PassOf, Ready;
    ReadyIsOpen(w, s, 2);
    PassesOnce(w, limits, s, n);
    if n > 0 && !w.cancelled(s.asked) && w.agentHasPriority(s.asked + 1) {
      PassKeepsLog(w, limits, Later(s, 2));
      var p := PassOf(w, limits, Later(s, 2));
      if p.exit == GoOn { PassesKeepLog(w, limits, p.state, n - 1); }
    }
  }

  lemma LastSaidKeepsLog(w: World, s: State)
    requires LogOk(w, s) && Truthful(w, LastSays(s.asked + 1)) && OpenTo(w, s.log, LastSays(0))
    ensures var p := LastSaid(w, s);
            && LogOk(w, p.state) && (p.exit == Crash <==> Crashed(w, p.state.log))
            && p.state.log[|p.state.log| - 1] == LastSays(p.state.asked - 1)
  {
    var t := s.asked;
    var u := Noted(s.(final := Some(w.lastWords(t)), asked := t + 2), LastSays(t + 1));
    NotedKeepsLog(w, s, u, LastSays(t + 1));
    RecordedKeepsLog(w, u, Said(w.lastWords(t)), LastWords(t));
    hide LogOk, Truthful;
  }

  /** Then either nothing happened, or last words were enacted. */
  lemma OverBudgetKeepsLog(w: World, s: State)
    requires LogOk(w, s) && OpenTo(w, s.log, LastSays(0)) && OpenTo(w, s.log, Leaves(0)) && !Crashed(w, s.log)
    requires s.asked >= 3 && !w.cancelled(s.asked - 1) && w.agentHasPriority(s.asked - 3)
    ensures var p := OverBudget(w, s);
            && LogOk(w, p.state) && (p.exit == Crash <==> Crashed(w, p.state.log))
            && (p.exit != Crash && !w.restartRequested(p.state.asked) ==> OpenTo(w, p.state.log, Leaves(0)))
  {
    hide LogOk, LastSaid, Strip;
    SameLog(w, s, s.(asked := s.asked + 1));
    var asks := s.fires < DOORMAN_FIRE_LIMIT;
    var v := if asks then w.verdict(s.asked) else Abstain;
    var t := if asks then s.(asked := s.asked + 1) else s;
    var fires := v.RequireTool? || (v.SendBack? && Strip(v.note) != "");
    var u := t.(fires := if fires then t.fires + 1 else t.fires);
    SameLog(w, t, u);
    if !v.Allow? && !v.Redrive? { LastSaidKeepsLog(w, u); }
  }

  lemma EndedKeepsLog(w: World, s: State)
    requires LogOk(w, s) && !Crashed(w, s.log) && (!w.restartRequested(s.asked) ==> OpenTo(w, s.log, Leaves(0)))
    ensures var p := Ended(w, s); LogOk(w, p.state) && (p.exit == Crash <==> Crashed(w, p.state.log))
  {
    hide LogOk, Truthful;
    SameLog(w, s, Later(s, 1));
    if !w.restartRequested(s.asked) {
      LeavesIsTruthful(w, s.asked + 1);
      NotedKeepsLog(w, s, Noted(Later(s, 2), Leaves(s.asked + 1)), Leaves(s.asked + 1));
    }
  }

  lemma WrappedUpKeepsLog(w: World, p: Passed)
    requires PassLogged(w, p)
    ensures var q := WrappedUp(w, p); LogOk(w, q.state) && (q.exit == Crash <==> Crashed(w, q.state.log))
  {
    hide LogOk, OverBudget, Ended, MayFollow;
    var s := p.state;
    SameLog(w, s, Later(s, 1));
    SameLog(w, s, Later(s, 2));
    SameLog(w, s, Later(s, 3));
    if p.exit != Crash && p.exit != Restart && w.agentHasPriority(s.asked) && !w.restartRequested(s.asked + 1) {
      if w.cancelled(s.asked + 2) || p.exit == Fail {
        EndedKeepsLog(w, Later(s, 3));
      } else {
        OverBudgetKeepsLog(w, Later(s, 3));
        if OverBudget(w, Later(s, 3)).exit != Crash { EndedKeepsLog(w, OverBudget(w, Later(s, 3)).state); }
      }
    }
  }

  /** Over every drive: each event is as the world says and may follow the one before;
      each row is of something on record; nothing comes after an action or a model call
      that raised, after a tool that asked for a restart, or after a doorman did; and the
      drive raises if and only if the last thing done did. */
  lemma WellOrdered(w: World, limits: map<string, int>, maxToolCalls: nat, asked: nat)
    ensures var p := Driven(w, limits, maxToolCalls, asked);
            LogOk(w, p.state) && (p.exit == Crash <==> Crashed(w, p.state.log))
  {
    var s, most := Begun(asked), MostPasses(maxToolCalls);
    assert LogOk(w, s) && Ready(w, s);
    PassesKeepLog(w, limits, s, most);
    WrappedUpKeepsLog(w, Passes(w, limits, s, most));
    hide Passes, WrappedUp, MostPasses, LogOk;
  }

  lemma {:induction false} LeavingIsFinal(w: World, log: seq<Event>, i: nat, j: nat)
    requires Linked(w, log) && i <= j < |log| && (log[i].Leaves? || log[i].LastSays?)
    ensures log[j].Leaves? || log[j].LastSays?
    decreases j - i
  {
    if i < j {
      assert MayFollow(w, log[i], log[i + 1]);
      LeavingIsFinal(w, log, i + 1, j);
    }
  }

  lemma NotHalted(w: World, log: seq<Event>, i: nat)
    requires Linked(w, log) && i + 1 < |log|
    ensures !Halts(w, log[i])
  {
    assert MayFollow(w, log[i], log[i + 1]);
  }

  /** Once the model has replied with text it is not asked again unless, in between,
      messages were taken in, a queued call was taken, a doorman sent the agent back, or
      the agent had lost the turn. */
  lemma NotAskedAgain(w: World, limits: map<string, int>, maxToolCalls: nat, asked: nat, i: nat, j: nat)
    requires var log := Driven(w, limits, maxToolCalls, asked).state.log;
             i < j < |log| && AskedText(w, log[i]) && log[j].Asked?
    ensures var log := Driven(w, limits, maxToolCalls, asked).state.log; exists k :: i < k < j && Resumes(log[k])
  {
    WellOrdered(w, limits, maxToolCalls, asked);
    var log := Driven(w, limits, maxToolCalls, asked).state.log;
    hide Driven;
    assert MayFollow(w, log[i], log[i + 1]);
    if log[i + 1].Says? {
      assert MayFollow(w, log[i + 1], log[i + 2]);
      NotHalted(w, log, i + 2);
      if !Resumes(log[i + 2]) { LeavingIsFinal(w, log, i + 2, j); }
    } else {
      LeavingIsFinal(w, log, i + 1, j);
    }
  }

  // ---- How often ---------------------------------------------------------------------

  /** Model calls, verdicts that sent the agent back, or the runs of one tool. */
  datatype Kind = ModelCalls | SendBacks | RunsOf(name: string)

  predicate OfKind(e: Event, k: Kind)
  {
    match k
    case ModelCalls => e.Asked?
    case SendBacks => e.SentBack?
    case RunsOf(name) => e.Ran? && e.name == name
  }

  function Times(log: seq<Event>, k: Kind): nat
  {
    if log == [] then 0 else Times(log[..|log| - 1], k) + if OfKind(log[|log| - 1], k) then 1 else 0
  }

  /** How often it happened, beyond what the counts of the loop say. */
  function Tally(s: State, k: Kind): int
  {
    Times(s.log, k) - match k
                      case ModelCalls => 0
                      case SendBacks => s.fires
                      case RunsOf(name) => Count(s.counts, name)
  }

  /** Whatever happened was counted; a verdict also if it did not send the agent back. */
  predicate Counted(s: State, t: State, k: Kind)
  {
    if k.SendBacks? then Tally(t, k) <= Tally(s, k) else Tally(t, k) == Tally(s, k)
  }

  lemma TallyNoted(s: State, t: State, e: Event, k: Kind)
    requires t.log == s.log + [e] && t.counts == s.counts && t.fires == s.fires
    ensures Tally(t, k) == Tally(s, k) + if OfKind(e, k) then 1 else 0
  {
    assert t.log[..|s.log|] == s.log;
  }

  lemma {:induction false} RecordedAllTalliesNone(s: State, t: nat, texts: seq<string>)
    ensures var u := RecordedAll(s, t, texts); u.log == s.log && u.counts == s.counts && u.fires == s.fires
  {
    if texts != [] { RecordedAllTalliesNone(s, t, texts[..|texts| - 1]); }
  }

  lemma DrainedTalliesNone(w: World, s: State, k: Kind)
    ensures Tally(Drained(w, s), k) == Tally(s, k)
  {
    var t := Noted(s.(asked := s.asked + 1), Heard(s.asked));
    TallyNoted(s, t, Heard(s.asked), k);
    RecordedAllTalliesNone(t, s.asked, w.queued(s.asked));
    hide Times;
  }

  lemma RepliedTalliesOnce(w: World, s: State, k: Kind)
    ensures Tally(Replied(w, s).state, k) == Tally(s, k) + if k.ModelCalls? then 1 else 0
  {
    TallyNoted(s, Replied(w, s).state, Asked(s.asked), k);
    hide Times;
  }

  lemma ChosenTalliesOnce(w: World, s: State, k: Kind)
    ensures var n := Tally(Chosen(w, s).state, k) - Tally(s, k); n == 0 || (n == 1 && k.ModelCalls?)
  {
    hide Times, Replied;
    var t := s.asked;
    var ordered, lost := Noted(s.(asked := t + 2), Ordered(t + 1)), Noted(s.(asked := t + 3), Lost(t + 2));
    TallyNoted(s, ordered, Ordered(t + 1), k);
    TallyNoted(s, lost, Lost(t + 2), k);
    RepliedTalliesOnce(w, lost, k);
    RepliedTalliesOnce(w, s.(asked := t + 3), k);
  }

  lemma LeftTalliesNone(w: World, s: State, k: Kind)
    ensures Counted(s, Left(w, s).state, k)
  {
    VettedTalliesNone(w, s, k);
    hide Times, Vetted;
    var t := Vetted(w, s);
    TallyNoted(t, Noted(t.(asked := t.asked + 1), Leaves(t.asked)), Leaves(t.asked), k);
  }

  lemma VettedTalliesNone(w: World, s: State, k: Kind)
    ensures Counted(s, Vetted(w, s), k)
  {
    TallyNoted(s, Noted(s, SentBack(s.asked)), SentBack(s.asked), k);
    TallyNoted(s, Noted(s, Redriven(s.asked)), Redriven(s.asked), k);
    hide Times, Strip;
  }

  lemma SpokenTalliesNone(w: World, s: State, text: string, o: Origin, k: Kind)
    ensures Counted(s, Spoken(w, s, text, o).state, k)
  {
    TallyNoted(s, Noted(s, Says(s.asked)), Says(s.asked), k);
    hide Times;
  }

  /** A run of a registered tool is counted. */
  lemma TriedTalliesNone(w: World, limits: map<string, int>, s: State, call: ToolCall, lead: Option<string>, o: Origin,
                         k: Kind)
    requires k.RunsOf? ==> k.name in limits
    ensures Counted(s, Tried(w, limits, s, call, lead, o).state, k)
  {
    CalledExactly(w, limits, s, call, lead, o);
    var t := Called(w, limits, s, call, lead, o);
    TallyNoted(s, Noted(s, Ran(s.asked, call.name)), Ran(s.asked, call.name), k);
    hide Times, Called, Refused;
    assert Tally(t, k) == Tally(s, k);
  }

  lemma ActedTalliesNone(w: World, limits: map<string, int>, s: State, action: Action, o: Origin, k: Kind)
    requires k.RunsOf? ==> k.name in limits
    ensures Counted(s, Acted(w, limits, s, action, o).state, k)
  {
    hide Tally, Left, Spoken, Tried;
    match action
    case Nothing =>
    case Raise =>
    case EndTurn => LeftTalliesNone(w, s, k);
    case SendText(text) => SpokenTalliesNone(w, s, text, o, k);
    case CallTool(call, lead) => TriedTalliesNone(w, limits, s, call, lead, o, k);
  }

  lemma LaterTalliesNone(s: State, n: nat, k: Kind)
    ensures Tally(Later(s, n), k) == Tally(s, k)
  {
  }

  lemma PassTalliesOnce(w: World, limits: map<string, int>, s: State, k: Kind)
    requires k.RunsOf? ==> k.name in limits
    ensures var t := PassOf(w, limits, s).state; Counted(s, t, k) || (k.ModelCalls? && Tally(t, k) == Tally(s, k) + 1)
  {
    DrainedTalliesNone(w, s, k);
    ChosenTalliesOnce(w, Drained(w, s), k);
    var c := Chosen(w, Drained(w, s));
    LaterTalliesNone(c.state, 1, k);
    ActedTalliesNone(w, limits, Later(c.state, 1), c.action, c.origin, k);
    hide Tally, Drained, Chosen, Acted, Later;
  }

  lemma {:induction false} PassesTally(w: World, limits: map<string, int>, s: State, n: nat, k: Kind)
    requires k.RunsOf? ==> k.name in limits
    ensures var t := Passes(w, limits, s, n).state;
            if k.ModelCalls? then Tally(t, k) <= Tally(s, k) + n else Counted(s, t, k)
    decreases n
  {
    hide Tally, PassOf, Later;
    var t := Later(s, 2);
    LaterTalliesNone(s, 2, k);
    PassesOnce(w, limits, s, n);
    if n > 0 {
      PassTalliesOnce(w, limits, t, k);
      if PassOf(w, limits, t).exit == GoOn { PassesTally(w, limits, PassOf(w, limits, t).state, n - 1, k); }
    }
  }

  lemma OverBudgetTalliesNone(w: World, s: State, k: Kind)
    ensures Counted(s, OverBudget(w, s).state, k)
  {
    var n := if s.fires < DOORMAN_FIRE_LIMIT then s.asked + 2 else s.asked + 1;
    TallyNoted(s, Noted(s, LastSays(n)), LastSays(n), k);
    hide Times, Strip;
  }

  lemma EndedTalliesNone(w: World, s: State, k: Kind)
    ensures Counted(s, Ended(w, s).state, k)
  {
    TallyNoted(s, Noted(s, Leaves(s.asked + 1)), Leaves(s.asked + 1), k);
    hide Times;
  }

  lemma WrappedUpTalliesNone(w: World, p: Passed, k: Kind)
    ensures Counted(p.state, WrappedUp(w, p).state, k)
  {
    hide Tally, OverBudget, Ended, Later;
    var s := Later(p.state, 3);
    LaterTalliesNone(p.state, 1, k);
    LaterTalliesNone(p.state, 2, k);
    LaterTalliesNone(p.state, 3, k);
    OverBudgetTalliesNone(w, s, k);
    EndedTalliesNone(w, s, k);
    EndedTalliesNone(w, OverBudget(w, s).state, k);
  }

  lemma DrivenTallies(w: World, limits: map<string, int>, maxToolCalls: nat, asked: nat, k: Kind)
    requires k.RunsOf? ==> k.name in limits
    ensures var t := Driven(w, limits, maxToolCalls, asked).state;
            if k.ModelCalls? then Tally(t, k) <= MostPasses(maxToolCalls) else Counted(Begun(asked), t, k)
  {
    var s, most := Begun(asked), MostPasses(maxToolCalls);
    PassesTally(w, limits, s, most, k);
    WrappedUpTalliesNone(w, Passes(w, limits, s, most), k);
    hide Passes, WrappedUp, MostPasses;
  }

  /** A drive asks the model at most four times one more than the call limit, whatever
      happens in it; the last words are asked for besides. */
  lemma AskedWithinBudget(w: World, limits: map<string, int>, maxToolCalls: nat, asked: nat)
    ensures Times(Driven(w, limits, maxToolCalls, asked).state.log, ModelCalls) <= 4 * (maxToolCalls + 1)
  {
    DrivenTallies(w, limits, maxToolCalls, asked, ModelCalls);
    hide Driven, Times;
  }

  /** In every drive a registered tool runs as often as it is counted, so never more
      often than its limit allows. */
  lemma RunWithinLimit(w: World, limits: map<string, int>, maxToolCalls: nat, asked: nat, name: string)
    requires name in limits
    ensures var s := Driven(w, limits, maxToolCalls, asked).state;
            var n := Times(s.log, RunsOf(name)); n == Count(s.counts, name) && (n <= limits[name] || n == 0)
  {
    DrivenTallies(w, limits, maxToolCalls, asked, RunsOf(name));
    DrivenInOrder(w, limits, maxToolCalls, asked);
    hide Driven, Paired, Sourced;
  }

  /** In every drive the agent is sent back at most three times. */
  lemma SentBackThreeTimes(w: World, limits: map<string, int>, maxToolCalls: nat, asked: nat)
    ensures Times(Driven(w, limits, maxToolCalls, asked).state.log, SendBacks) <= 3
  {
    DrivenTallies(w, limits, maxToolCalls, asked, SendBacks);
    DrivenInOrder(w, limits, maxToolCalls, asked);
    hide Driven, Paired, Sourced;
  }

  // ---- That it ends ----------------------------------------------------------------------

  /** The agent keeps the turn, nobody has it driven again, and nothing raises. */
  ghost predicate Undisturbed(w: World)
  {
    forall t :: && w.agentHasPriority(t) && !w.restartRequested(t) && !w.verdict(t).Redrive?
                && !w.outcome(t).Raised? && !w.reply(t).NoReply?
  }

  /** Then every drive ends the turn as the last thing it does, whether the model ends it,
      the drive is cancelled, an action fails, or the passes run out. */
  lemma EndsTheTurn(w: World, limits: map<string, int>, maxToolCalls: nat, asked: nat)
    requires Undisturbed(w)
    ensures var p := Driven(w, limits, maxToolCalls, asked);
            p.exit == Stop && p.state.log != [] && p.state.log[|p.state.log| - 1].Leaves?
  {
    PassesEndWell(w, limits, Begun(asked), MostPasses(maxToolCalls));
    WrappedUpEnds(w, Passes(w, limits, Begun(asked), MostPasses(maxToolCalls)));
    hide Passes, WrappedUp, Undisturbed;
  }

  lemma WrappedUpEnds(w: World, p: Passed)
    requires Undisturbed(w) && p.exit != Restart && p.exit != Crash
    ensures var q := WrappedUp(w, p); q.exit == Stop && q.state.log != [] && q.state.log[|q.state.log| - 1].Leaves?
  {
    OverBudgetEndsWell(w, Later(p.state, 3));
    hide OverBudget;
  }

  lemma OverBudgetEndsWell(w: World, s: State)
    requires Undisturbed(w)
    ensures OverBudget(w, s).exit == Stop
  {
    hide Strip;
  }

  lemma {:induction false} PassesEndWell(w: World, limits: map<string, int>, s: State, n: nat)
    requires Undisturbed(w)
    ensures Passes(w, limits, s, n).exit != Restart && Passes(w, limits, s, n).exit != Crash
    decreases n
  {
    hide PassOf;
    PassesOnce(w, limits, s, n);
    if n > 0 {
      var t := Later(s, 2);
      PassEndsWell(w, limits, t);
      if PassOf(w, limits, t).exit == GoOn { PassesEndWell(w, limits, PassOf(w, limits, t).state, n - 1); }
    }
  }

  lemma PassEndsWell(w: World, limits: map<string, int>, s: State)
    requires Undisturbed(w)
    ensures PassOf(w, limits, s).exit != Restart && PassOf(w, limits, s).exit != Crash
  {
    hide Drained, Strip;
    var t := Drained(w, s);
    assert !Chosen(w, t).action.Raise?;
    hide Chosen;
  }

  // ---- Drives nobody disturbs ---------------------------------------------------------------

  /** No cancel, no message, no queued call, no restart; every action succeeds and no
      doorman objects. */
  ghost predicate Quiet(w: World)
  {
    forall t :: && !w.cancelled(t) && w.queued(t) == [] && w.forced(t).None? && !w.restartRequested(t)
                && w.outcome(t) == Done && w.verdict(t) == Abstain
  }

  lemma PassOfText(w: World, limits: map<string, int>, s: State, text: string)
    requires Quiet(w) && s.pending == [] && s.final.None? && w.reply(s.asked + 4) == Text(text)
    ensures var r := s.asked + 4;
            PassOf(w, limits, s) ==
              Passed(s.(asked := s.asked + 8, reply := r, taken := 0, final := Some(text),
                rows := s.rows + [Said(text)],
                origins := s.origins + [SpokenBy(r)], log := s.log + [Asked(r), Says(s.asked + 6)]), GoOn)
  {
  }

  lemma PassOfEnd(w: World, limits: map<string, int>, s: State)
    requires Quiet(w) && s.pending == [] && s.final.Some? && s.fires < 3 && w.agentHasPriority(s.asked + 3)
    ensures PassOf(w, limits, s) == Passed(s.(asked := s.asked + 8, log := s.log + [Leaves(s.asked + 6)]), Stop)
  {
  }

  /** A text reply, and nothing else: it is said once, the model is asked once, and the
      turn is ended. */
  lemma OneTextReply(w: World, limits: map<string, int>, maxToolCalls: nat, asked: nat, text: string)
    requires Quiet(w) && w.reply(asked + 6) == Text(text)
    requires forall t: nat :: w.agentHasPriority(t) <==> t < asked + 20
    ensures var p := Driven(w, limits, maxToolCalls, asked);
            p.exit == Stop && p.state.rows == [Said(text)]
            && p.state.log == [Asked(asked + 6), Says(asked + 8), Leaves(asked + 18)]
  {
    hide PassOf;
    var s, most := Begun(asked), MostPasses(maxToolCalls);
    PassOfText(w, limits, Later(s, 2), text);
    var t := PassOf(w, limits, Later(s, 2)).state;
    PassOfEnd(w, limits, Later(t, 2));
    PassesOnce(w, limits, s, most);
    PassesOnce(w, limits, t, most - 1);
    hide Passes;
  }

  lemma PassOfCall(w: World, limits: map<string, int>, s: State, call: ToolCall, lead: Option<string>)
    requires Quiet(w) && s.pending == [] && s.final.None? && w.reply(s.asked + 4) == Calls(call, [], lead)
    requires call.validArguments && call.name !in limits
    ensures var r := s.asked + 4;
            PassOf(w, limits, s) ==
              Passed(s.(asked := s.asked + 9, reply := r, taken := 1, pending := [], lead := None,
                rows := s.rows + [Call(call.id, call.name, lead), Result(call.id, call.name)],
                origins := s.origins + [OfReply(r, 0), Answer],
                log := s.log + [Asked(r), Ran(s.asked + 7, call.name)]), GoOn)
  {
  }

  /** A reply with one tool call, and then a text: the pair, then the text, and the end. */
  lemma OneCallThenText(w: World, limits: map<string, int>, maxToolCalls: nat, asked: nat, call: ToolCall,
                        lead: Option<string>, text: string)
    requires Quiet(w) && w.reply(asked + 6) == Calls(call, [], lead) && w.reply(asked + 17) == Text(text)
    requires call.validArguments && call.name !in limits
    requires forall t: nat :: w.agentHasPriority(t) <==> t < asked + 31
    ensures var p := Driven(w, limits, maxToolCalls, asked);
            && p.exit == Stop
            && p.state.rows == [Call(call.id, call.name, lead), Result(call.id, call.name), Said(text)]
            && p.state.log == [Asked(asked + 6), Ran(asked + 9, call.name), Asked(asked + 17), Says(asked + 19),
                               Leaves(asked + 29)]
  {
    hide PassOf;
    var s, most := Begun(asked), MostPasses(maxToolCalls);
    PassOfCall(w, limits, Later(s, 2), call, lead);
    var t := PassOf(w, limits, Later(s, 2)).state;
    PassOfText(w, limits, Later(t, 2), text);
    var u := PassOf(w, limits, Later(t, 2)).state;
    PassOfEnd(w, limits, Later(u, 2));
    PassesOnce(w, limits, s, most);
    PassesOnce(w, limits, t, most - 1);
    PassesOnce(w, limits, u, most - 2);
    hide Passes;
  }
}
