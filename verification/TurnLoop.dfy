/** One drive of the agent's turn: the rows it appends, the tools it enacts and
    the doormen at its exit. Model replies, enact outcomes, verdicts, cancels and
    arriving messages come from outside and are arbitrary. */
module TurnLoop {
  import opened Basics

  const DOORMAN_FIRE_LIMIT := 3

  datatype ToolCall = ToolCall(id: string, name: string, validArguments: bool)

  /** A reply calls at least one tool, or it is text; or the model call raises. */
  datatype Reply = Calls(first: ToolCall, more: seq<ToolCall>, lead: Option<string>) | Text(text: string) | NoReply

  datatype Verdict = Abstain | Allow | Redrive | SendBack(note: string, ephemeral: bool)
                   | RequireTool(known: bool) | Unknown

  datatype Outcome = Done | NotOk | Raised

  /** What the world answers, by the number of the question. */
  datatype World = World(
    cancelled: nat -> bool, agentHasPriority: nat -> bool, restartRequested: nat -> bool,
    queued: nat -> seq<string>, forced: nat -> Option<ToolCall>, reply: nat -> Reply,
    outcome: nat -> Outcome, verdict: nat -> Verdict, lastWords: nat -> string)

  datatype Row = User(text: string) | Said(text: string)
               | Call(id: string, name: string, lead: Option<string>) | Result(id: string, name: string)

  /** Where a row comes from: call `k` of reply `r`, or what a hook queued, as question
      `t` found it; the text of reply `r`; message `k` of those question `t` found; the
      note of verdict `t`; the last words of a turn out of budget; or it is the result
      of the call before it. */
  datatype Origin = OfReply(r: nat, k: nat) | Forced(t: nat) | SpokenBy(r: nat) | Message(t: nat, k: nat)
                  | Note(t: nat) | LastWords(t: nat) | Answer

  /** What happened, by the number of the question: the model was asked; messages were
      taken in, a queued call was taken, a doorman sent the agent back, or it was found
      not to hold the turn although it had said its text; a doorman had the turn driven
      again; a tool, the saying of a text, that of the last words, or the end of the turn
      was enacted. */
  datatype Event = Asked(t: nat) | Heard(t: nat) | Ordered(t: nat) | SentBack(t: nat) | Lost(t: nat)
                 | Redriven(t: nat) | Ran(t: nat, name: string) | Says(t: nat) | LastSays(t: nat) | Leaves(t: nat)

  /** What to do next; `Raise` if choosing raised. */
  datatype Action = Nothing | Raise | SendText(text: string) | EndTurn
                  | CallTool(call: ToolCall, lead: Option<string>)

  datatype Gate = LetGo | Again | RedriveTurn

  /** The state of a drive, and besides: where each row comes from, the reply the
      pending calls are from and how many of its calls were taken, and what happened. */
  datatype State = State(
    asked: nat, pending: seq<ToolCall>, lead: Option<string>, final: Option<string>,
    counts: map<string, nat>, fires: nat, rows: seq<Row>,
    origins: seq<Origin>, reply: nat, taken: nat, log: seq<Event>)

  function CallsOf(r: Reply): seq<ToolCall>
  {
    if r.Calls? then [r.first] + r.more else []
  }

  function Count(counts: map<string, nat>, name: string): nat
  {
    if name in counts then counts[name] else 0
  }

  /** After some more questions. */
  function Later(s: State, n: nat): State
  {
    s.(asked := s.asked + n)
  }

  // ---- What each stage makes of the state -----------------------------------------

  function Recorded(s: State, row: Row, o: Origin): State
  {
    s.(rows := s.rows + [row], origins := s.origins + [o])
  }

  function Noted(s: State, e: Event): State
  {
    s.(log := s.log + [e])
  }

  /** The messages question `t` found. */
  function RecordedAll(s: State, t: nat, texts: seq<string>): State
  {
    if texts == [] then s
    else
      var n := |texts| - 1;
      Recorded(RecordedAll(s, t, texts[..n]), User(texts[n]), Message(t, n))
  }

  function Users(texts: seq<string>): seq<Row>
  {
    seq(|texts|, i requires 0 <= i < |texts| => User(texts[i]))
  }

  /** Messages that arrived are recorded, but never between the calls of a reply;
      then the model is asked again. */
  function Drained(w: World, s: State): State
  {
    if s.pending != [] then s
    else if w.queued(s.asked) == [] then s.(asked := s.asked + 1)
    else RecordedAll(Noted(s.(asked := s.asked + 1), Heard(s.asked)), s.asked, w.queued(s.asked)).(final := None)
  }

  /** What was chosen, where it comes from, and the state after choosing. */
  datatype Choice = Choice(action: Action, origin: Origin, state: State)

  function Popped(s: State): Choice
    requires s.pending != []
  {
    Choice(CallTool(s.pending[0], s.lead), OfReply(s.reply, s.taken),
           s.(pending := s.pending[1..], lead := None, taken := s.taken + 1))
  }

  /** The model's reply: text is said and is final; of calls the first is taken; a model
      call that raises ends the drive. */
  function Replied(w: World, s: State): Choice
  {
    var t := Noted(s.(asked := s.asked + 1, reply := s.asked, taken := 0), Asked(s.asked));
    match w.reply(s.asked)
    case NoReply => Choice(Raise, Answer, t)
    case Text(text) => Choice(SendText(text), SpokenBy(s.asked), t.(final := Some(text)))
    case Calls(first, more, lead) =>
      var u := t.(pending := [first] + more, lead := lead, asked := t.asked + 1);
      if w.cancelled(t.asked) then Choice(Nothing, Answer, u) else Popped(u)
  }

  /** The next action: a pending call first, then a call queued for the agent;
      once a final text was said, the end; else what the model replies. */
  function Chosen(w: World, s: State): Choice
  {
    var t := s.asked;
    if w.cancelled(t) then Choice(Nothing, Answer, s.(asked := t + 1))
    else if s.pending != [] then Popped(s.(asked := t + 1))
    else if w.forced(t + 1).Some? then
      Choice(CallTool(w.forced(t + 1).value, None), Forced(t + 1), Noted(s.(asked := t + 2), Ordered(t + 1)))
    else if s.final.Some? then
      if w.agentHasPriority(t + 2) then Choice(EndTurn, Answer, s.(asked := t + 3))
      else Replied(w, Noted(s.(asked := t + 3), Lost(t + 2)))
    else Replied(w, s.(asked := t + 3))
  }

  /** The documented order: a cancelled turn does nothing more; a pending call comes
      first, then a call queued for the agent; the turn ends exactly if neither is there,
      a text was said and the agent holds the turn; else the model is asked, and says
      text, has its first call taken, or raises. */
  ghost predicate Documented(w: World, t: nat, pending: seq<ToolCall>, lead: Option<string>, final: Option<string>,
                             a: Action)
  {
    && (w.cancelled(t) ==> a == Nothing)
    && (!w.cancelled(t) && pending != [] ==> a == CallTool(pending[0], lead))
    && (!w.cancelled(t) && pending == [] && w.forced(t + 1).Some? ==> a == CallTool(w.forced(t + 1).value, None))
    && (a == EndTurn <==>
        !w.cancelled(t) && pending == [] && w.forced(t + 1).None? && final.Some? && w.agentHasPriority(t + 2))
    && (!w.cancelled(t) && pending == [] && w.forced(t + 1).None? && (final.None? || !w.agentHasPriority(t + 2)) ==>
          AsReplied(w, t + 3, a))
  }

  ghost predicate AsReplied(w: World, t: nat, a: Action)
  {
    match w.reply(t)
    case NoReply => a == Raise
    case Text(text) => a == SendText(text)
    case Calls(first, more, lead) => a == if w.cancelled(t + 1) then Nothing else CallTool(first, lead)
  }

  lemma ChosenIsDocumented(w: World, s: State)
    ensures Documented(w, s.asked, s.pending, s.lead, s.final, Chosen(w, s).action)
    ensures Chosen(w, s).action.SendText? ==> Chosen(w, s).state.final == Some(Chosen(w, s).action.text)
  {
  }

  /** The two rows of a tool call. */
  function Absorbed(s: State, call: ToolCall, lead: Option<string>, o: Origin): State
  {
    s.(rows := s.rows + [Call(call.id, call.name, lead), Result(call.id, call.name)],
      origins := s.origins + [o, Answer])
  }

  /** Garbage arguments, or a registered tool at its limit. */
  predicate Refused(limits: map<string, int>, s: State, call: ToolCall)
  {
    !call.validArguments || (call.name in limits && Count(s.counts, call.name) >= limits[call.name])
  }

  /** What the world says to an enactment, which counts if the tool is registered. */
  function Enacted(limits: map<string, int>, s: State, name: string): State
  {
    var t := Noted(s.(asked := s.asked + 1), Ran(s.asked, name));
    if name in limits then t.(counts := s.counts[name := Count(s.counts, name) + 1]) else t
  }

  /** A call is refused or enacted; its pair of rows follows unless it raised. */
  function Called(w: World, limits: map<string, int>, s: State, call: ToolCall, lead: Option<string>, o: Origin): State
  {
    if Refused(limits, s, call) then Absorbed(s, call, lead, o)
    else if w.outcome(s.asked).Raised? then Enacted(limits, s, call.name)
    else Absorbed(Enacted(limits, s, call.name), call, lead, o)
  }

  lemma CalledExactly(w: World, limits: map<string, int>, s: State, call: ToolCall, lead: Option<string>, o: Origin)
    ensures var t, n := Called(w, limits, s, call, lead, o), Count(s.counts, call.name);
            var refused := Refused(limits, s, call);
            && t.pending == s.pending && t.lead == s.lead && t.final == s.final && t.fires == s.fires
            && t.asked == (if refused then s.asked else s.asked + 1)
            && t.counts == (if call.name in limits && !refused then s.counts[call.name := n + 1] else s.counts)
            && t.log == s.log + (if refused then [] else [Ran(s.asked, call.name)])
            && t.rows == s.rows + if !refused && w.outcome(s.asked).Raised? then []
                                  else [Call(call.id, call.name, lead), Result(call.id, call.name)]
  {
  }

  /** What a verdict means for an agent that wants to leave. */
  function GateOf(verdict: Verdict): Gate
  {
    match verdict
    case Redrive => RedriveTurn
    case SendBack(_, _) => Again
    case RequireTool(known) => if known then Again else LetGo
    case _ => LetGo
  }

  function GateNow(w: World, s: State): Gate
  {
    if s.fires >= DOORMAN_FIRE_LIMIT then LetGo else GateOf(w.verdict(s.asked))
  }

  /** Past the limit no doorman is asked; a note that is not ephemeral is recorded. */
  function Vetted(w: World, s: State): State
  {
    if s.fires >= DOORMAN_FIRE_LIMIT then s
    else
      var t, v := s.(asked := s.asked + 1), w.verdict(s.asked);
      var u := if v.SendBack? || v.RequireTool? || v.Unknown? then t.(fires := t.fires + 1) else t;
      if v.Redrive? then Noted(u, Redriven(s.asked))
      else if GateOf(v) != Again then u
      else
        var back := Noted(u.(final := None), SentBack(s.asked));
        if v.SendBack? && Strip(v.note) != "" && !v.ephemeral then Recorded(back, User(Strip(v.note)), Note(s.asked))
        else back
  }

  /** What a doorman's verdict does: nothing after three fires; a redrive has the turn
      driven again; a note, or a tool that is known, sends the agent back, with nothing
      said yet; every verdict but abstaining, allowing and a redrive counts; a note is
      recorded unless it is ephemeral or blank. */
  ghost predicate VettedAs(w: World, t: nat, fires: nat, rows: seq<Row>, final: Option<string>, gate: Gate,
                           newFires: nat, newRows: seq<Row>, newFinal: Option<string>)
  {
    if fires >= 3 then gate == LetGo && newFires == fires && newRows == rows && newFinal == final
    else
      var v := w.verdict(t);
      && (gate == RedriveTurn <==> v.Redrive?) && (gate == Again <==> v.SendBack? || v == RequireTool(true))
      && newFires == fires + (if v.Abstain? || v.Allow? || v.Redrive? then 0 else 1)
      && newRows == rows + (if v.SendBack? && !v.ephemeral && Strip(v.note) != "" then [User(Strip(v.note))] else [])
      && newFinal == if gate == Again then None else final
  }

  lemma VettedExactly(w: World, s: State)
    ensures var t := Vetted(w, s);
            VettedAs(w, s.asked, s.fires, s.rows, s.final, GateNow(w, s), t.fires, t.rows, t.final)
  {
    hide Strip;
  }

  /** How a pass ends, and the state it leaves. */
  datatype Exit = GoOn | Stop | Restart | Fail | Crash

  datatype Passed = Passed(state: State, exit: Exit)

  function AfterEnact(w: World, s: State, outcome: Outcome, ok: Exit, bad: Exit): Passed
  {
    Passed(s.(asked := s.asked + 1), if w.restartRequested(s.asked) then Restart else if outcome.Done? then ok else bad)
  }

  /** Ask the doormen, and if they let the agent go, end the turn. */
  function Left(w: World, s: State): Passed
  {
    var t := Vetted(w, s);
    match GateNow(w, s)
    case Again => Passed(t, GoOn)
    case RedriveTurn => Passed(t, Restart)
    case LetGo =>
      var u := Noted(t.(asked := t.asked + 1), Leaves(t.asked));
      if w.outcome(t.asked).Raised? then Passed(u, Crash) else AfterEnact(w, u, w.outcome(t.asked), Stop, Fail)
  }

  function Spoken(w: World, s: State, text: string, o: Origin): Passed
  {
    var u := Noted(s.(asked := s.asked + 1), Says(s.asked));
    if w.outcome(s.asked).Raised? then Passed(u, Crash)
    else AfterEnact(w, Recorded(u, Said(text), o), w.outcome(s.asked), GoOn, Fail)
  }

  /** A call that fails is fed back to the model; one refused does not even look at
      a restart. */
  function Tried(w: World, limits: map<string, int>, s: State, call: ToolCall, lead: Option<string>, o: Origin): Passed
  {
    var t := Called(w, limits, s, call, lead, o);
    if Refused(limits, s, call) then Passed(t, GoOn)
    else if w.outcome(s.asked).Raised? then Passed(t, Crash)
    else AfterEnact(w, t, Done, GoOn, GoOn)
  }

  /** One pass of the loop. */
  function PassOf(w: World, limits: map<string, int>, s: State): Passed
  {
    var c := Chosen(w, Drained(w, s));
    if c.action.Nothing? then Passed(c.state, Stop)
    else if c.action.Raise? then Passed(c.state, Crash)
    else if w.cancelled(c.state.asked) then Passed(Later(c.state, 1), Stop)
    else Acted(w, limits, Later(c.state, 1), c.action, c.origin)
  }

  function Acted(w: World, limits: map<string, int>, s: State, action: Action, o: Origin): Passed
  {
    match action
    case Nothing => Passed(s, Stop)
    case Raise => Passed(s, Crash)
    case EndTurn => Left(w, s)
    case SendText(text) => Spoken(w, s, text, o)
    case CallTool(call, lead) => Tried(w, limits, s, call, lead, o)
  }

  /** At most `n` passes, while not cancelled and the turn is the agent's. */
  function Passes(w: World, limits: map<string, int>, s: State, n: nat): Passed
    decreases n
  {
    if n == 0 then Passed(s, GoOn)
    else if w.cancelled(s.asked) || !w.agentHasPriority(s.asked + 1) then Passed(Later(s, 2), GoOn)
    else
      var p := PassOf(w, limits, Later(s, 2));
      if p.exit != GoOn then p else Passes(w, limits, p.state, n - 1)
  }

  function LastSaid(w: World, s: State): Passed
  {
    var text := w.lastWords(s.asked);
    var u := Noted(s.(final := Some(text), asked := s.asked + 2), LastSays(s.asked + 1));
    if w.outcome(s.asked + 1).Raised? then Passed(u, Crash)
    else Passed(Recorded(u, Said(text), LastWords(s.asked)), Stop)
  }

  /** Out of budget: the doormen are asked once more, and unless they say otherwise
      a last text is said. */
  function OverBudget(w: World, s: State): Passed
  {
    var asks := s.fires < DOORMAN_FIRE_LIMIT;
    var verdict := if asks then w.verdict(s.asked) else Abstain;
    var t := if asks then s.(asked := s.asked + 1) else s;
    if verdict.Allow? || verdict.Redrive? then Passed(t, Stop)
    else
      var fires := verdict.RequireTool? || (verdict.SendBack? && Strip(verdict.note) != "");
      LastSaid(w, t.(fires := if fires then t.fires + 1 else t.fires))
  }

  /** A doorman that waves the turn through silently, or has it driven again. */
  predicate Waved(w: World, s: State)
  {
    s.fires < 3 && (w.verdict(s.asked).Allow? || w.verdict(s.asked).Redrive?)
  }

  lemma OverBudgetSays(w: World, s: State)
    ensures var p := OverBudget(w, s);
            && p.state.rows == s.rows + (if Waved(w, s) || p.exit == Crash then []
                                         else [Said(w.lastWords(p.state.asked - 2))])
            && p.state.final == (if Waved(w, s) then s.final else Some(w.lastWords(p.state.asked - 2)))
            && (Waved(w, s) ==> p.exit != Crash) && (p.exit != Crash ==> p.exit == Stop)
            && (!Waved(w, s) ==> (p.exit == Crash <==> w.outcome(p.state.asked - 1).Raised?))
  {
    hide Strip;
  }

  /** A turn the agent still holds is wrapped up and ended. */
  function WrappedUp(w: World, p: Passed): Passed
  {
    var s := p.state;
    if p.exit == Crash then p
    else if !w.agentHasPriority(s.asked) || p.exit == Restart then Passed(Later(s, 1), Stop)
    else if w.restartRequested(s.asked + 1) then Passed(Later(s, 2), Stop)
    else if w.cancelled(s.asked + 2) || p.exit == Fail then Ended(w, Later(s, 3))
    else
      var q := OverBudget(w, Later(s, 3));
      if q.exit == Crash then q else Ended(w, q.state)
  }

  function Ended(w: World, s: State): Passed
  {
    if w.restartRequested(s.asked) then Passed(Later(s, 1), Stop)
    else Passed(Noted(Later(s, 2), Leaves(s.asked + 1)), if w.outcome(s.asked + 1).Raised? then Crash else Stop)
  }

  function Begun(asked: nat): State
  {
    State(asked, [], None, None, map[], 0, [], [], 0, 0, [])
  }

  function MostPasses(maxToolCalls: nat): nat
  {
    4 * (maxToolCalls + 1)
  }

  /** The whole drive. */
  function Driven(w: World, limits: map<string, int>, maxToolCalls: nat, asked: nat): Passed
  {
    WrappedUp(w, Passes(w, limits, Begun(asked), MostPasses(maxToolCalls)))
  }

  // ---- What every drive keeps --------------------------------------------------------

  /** Every call row is followed at once by its result and every result preceded
      by its call. */
  ghost predicate Paired(rows: seq<Row>)
  {
    && (forall i :: 0 <= i < |rows| && rows[i].Call? ==>
          i + 1 < |rows| && rows[i + 1] == Result(rows[i].id, rows[i].name))
    && (forall i :: 0 <= i < |rows| && rows[i].Result? ==>
          i > 0 && rows[i - 1].Call? && rows[i - 1].id == rows[i].id && rows[i - 1].name == rows[i].name)
  }

  /** Every row is what its origin holds. The rows of a reply are its first calls, in
      order and with no other row between them; messages found together stand together,
      in order. */
  ghost predicate Sourced(w: World, rows: seq<Row>, origins: seq<Origin>)
  {
    |origins| == |rows| && forall i :: 0 <= i < |rows| ==> RowSourced(w, rows, origins, i)
  }

  ghost predicate RowSourced(w: World, rows: seq<Row>, origins: seq<Origin>, i: nat)
    requires i < |rows| == |origins|
  {
    match origins[i]
    case Answer => rows[i].Result?
    case SpokenBy(r) => w.reply(r).Text? && rows[i] == Said(w.reply(r).text)
    case Message(t, k) =>
      && k < |w.queued(t)| && rows[i] == User(w.queued(t)[k])
      && (k > 0 ==> i >= 1 && origins[i - 1] == Message(t, k - 1))
    case Note(t) =>
      w.verdict(t).SendBack? && !w.verdict(t).ephemeral && rows[i] == User(Strip(w.verdict(t).note))
    case LastWords(t) => rows[i] == Said(w.lastWords(t))
    case Forced(t) =>
      w.forced(t).Some? && rows[i] == Call(w.forced(t).value.id, w.forced(t).value.name, None)
    case OfReply(r, k) =>
      && k < |CallsOf(w.reply(r))|
      && rows[i] == Call(CallsOf(w.reply(r))[k].id, CallsOf(w.reply(r))[k].name, if k == 0 then w.reply(r).lead
        else None)
      && (k > 0 ==> i >= 2 && origins[i - 2] == OfReply(r, k - 1))
  }

  ghost predicate RowsOk(w: World, s: State)
  {
    Paired(s.rows) && Sourced(w, s.rows, s.origins)
  }

  ghost predicate CountsOk(limits: map<string, int>, s: State)
  {
    && (forall n :: n in s.counts ==> n in limits && s.counts[n] <= limits[n])
    && s.fires <= DOORMAN_FIRE_LIMIT
  }

  /** The pending calls are what is left of the last reply. */
  ghost predicate Rest(w: World, s: State)
  {
    s.pending != [] ==>
      && s.taken <= |CallsOf(w.reply(s.reply))| && s.pending == CallsOf(w.reply(s.reply))[s.taken..]
      && w.reply(s.reply).Calls? && s.lead == (if s.taken == 0 then w.reply(s.reply).lead else None)
  }

  /** The last two rows are the pair of the call before this one. */
  ghost predicate Follows(s: State, o: Origin)
  {
    o.OfReply? && o.k > 0 ==> |s.origins| >= 2 && s.origins[|s.origins| - 2] == OfReply(o.r, o.k - 1)
  }

  ghost predicate PendingOk(w: World, s: State)
  {
    Rest(w, s) && (s.pending != [] ==> Follows(s, OfReply(s.reply, s.taken)))
  }

  ghost predicate Valid(w: World, limits: map<string, int>, s: State)
  {
    RowsOk(w, s) && CountsOk(limits, s) && PendingOk(w, s)
  }

  /** The call is the one its origin names. */
  ghost predicate Matches(w: World, call: ToolCall, lead: Option<string>, o: Origin)
  {
    match o
    case Forced(t) => w.forced(t) == Some(call) && lead == None
    case OfReply(r, k) =>
      && k < |CallsOf(w.reply(r))| && call == CallsOf(w.reply(r))[k]
      && lead == (if k == 0 then w.reply(r).lead else None)
    case _ => false
  }

  /** A call was chosen and its pair is still to be recorded. */
  ghost predicate ToRecord(w: World, s: State, call: ToolCall, lead: Option<string>, o: Origin)
  {
    && Rest(w, s) && Matches(w, call, lead, o) && Follows(s, o)
    && (s.pending != [] ==> s.taken > 0 && o == OfReply(s.reply, s.taken - 1))
  }

  lemma PairedNext(rows: seq<Row>, row: Row)
    requires Paired(rows) && (row.User? || row.Said?)
    ensures Paired(rows + [row])
  {
    var more := rows + [row];
    forall i | 0 <= i < |more| && more[i].Call?
      ensures i + 1 < |more| && more[i + 1] == Result(more[i].id, more[i].name)
    {
      assert rows[i].Call?;
    }
  }

  lemma PairedPair(rows: seq<Row>, id: string, name: string, text: Option<string>)
    requires Paired(rows)
    ensures Paired(rows + [Call(id, name, text), Result(id, name)])
  {
    var more := rows + [Call(id, name, text), Result(id, name)];
    forall i | 0 <= i < |more| && more[i].Call?
      ensures i + 1 < |more| && more[i + 1] == Result(more[i].id, more[i].name)
    {
      if i < |rows| { assert rows[i].Call?; }
    }
    forall i | 0 <= i < |more| && more[i].Result?
      ensures i > 0 && more[i - 1].Call? && more[i - 1].id == more[i].id && more[i - 1].name == more[i].name
    {
      if i < |rows| { assert rows[i].Result?; }
    }
  }

  lemma SourcedMore(w: World, rows: seq<Row>, origins: seq<Origin>, newRows: seq<Row>, newOrigins: seq<Origin>)
    requires Sourced(w, rows, origins) && |newRows| == |newOrigins|
    requires forall i :: |rows| <= i < |rows + newRows| ==> RowSourced(w, rows + newRows, origins + newOrigins, i)
    ensures Sourced(w, rows + newRows, origins + newOrigins)
  {
    forall i | 0 <= i < |rows|
      ensures RowSourced(w, rows + newRows, origins + newOrigins, i)
    {
      assert RowSourced(w, rows, origins, i);
    }
  }

  lemma RecordedKeeps(w: World, limits: map<string, int>, s: State, row: Row, o: Origin)
    requires RowsOk(w, s) && CountsOk(limits, s) && (row.User? || row.Said?)
    requires RowSourced(w, s.rows + [row], s.origins + [o], |s.rows|)
    ensures RowsOk(w, Recorded(s, row, o)) && CountsOk(limits, Recorded(s, row, o))
    ensures s.pending == [] ==> PendingOk(w, Recorded(s, row, o))
  {
    PairedNext(s.rows, row);
    SourcedMore(w, s.rows, s.origins, [row], [o]);
    hide Paired, Sourced, RowSourced;
  }

  lemma SourcedMessage(w: World, s: State, t: nat, k: nat)
    requires RowsOk(w, s) && k < |w.queued(t)|
    requires k > 0 ==> |s.origins| > 0 && s.origins[|s.origins| - 1] == Message(t, k - 1)
    ensures |s.origins| == |s.rows|
            && RowSourced(w, s.rows + [User(w.queued(t)[k])], s.origins + [Message(t, k)], |s.rows|)
  {
  }

  lemma {:induction false} RecordedAllKeeps(w: World, limits: map<string, int>, s: State, t: nat, texts: seq<string>)
    requires RowsOk(w, s) && CountsOk(limits, s) && texts <= w.queued(t)
    ensures var u := RecordedAll(s, t, texts);
            && RowsOk(w, u) && CountsOk(limits, u) && u.pending == s.pending && u.asked == s.asked && u.log == s.log
            && (texts != [] ==> |u.origins| > 0 && u.origins[|u.origins| - 1] == Message(t, |texts| - 1))
  {
    hide CountsOk, Paired, Sourced;
    if texts != [] {
      var n := |texts| - 1;
      RecordedAllKeeps(w, limits, s, t, texts[..n]);
      var u := RecordedAll(s, t, texts[..n]);
      SourcedMessage(w, u, t, n);
      hide RowSourced, RowsOk;
      RecordedKeeps(w, limits, u, User(texts[n]), Message(t, n));
    }
  }

  /** Only the questions asked and what is final differ, or nothing is pending. */
  lemma SameRowsKeep(w: World, limits: map<string, int>, s: State, t: State)
    requires t.rows == s.rows && t.origins == s.origins && t.counts == s.counts
    requires t.fires == s.fires
    ensures RowsOk(w, s) ==> RowsOk(w, t)
    ensures CountsOk(limits, s) ==> CountsOk(limits, t)
    ensures t.pending == s.pending && t.lead == s.lead && t.reply == s.reply && t.taken == s.taken
              && PendingOk(w, s) ==>
              PendingOk(w, t)
    ensures t.pending == [] ==> PendingOk(w, t)
  {
  }

  lemma DrainedKeeps(w: World, limits: map<string, int>, s: State)
    requires Valid(w, limits, s)
    ensures Valid(w, limits, Drained(w, s))
  {
    hide RowsOk, CountsOk, PendingOk, RecordedAll;
    if s.pending == [] {
      var t := s.(asked := s.asked + 1);
      SameRowsKeep(w, limits, s, t);
      var heard := Noted(t, Heard(s.asked));
      SameRowsKeep(w, limits, s, heard);
      RecordedAllKeeps(w, limits, heard, s.asked, w.queued(s.asked));
      var u := RecordedAll(heard, s.asked, w.queued(s.asked));
      SameRowsKeep(w, limits, u, u.(final := None));
    }
  }

  lemma PoppedKeeps(w: World, s: State)
    requires PendingOk(w, s) && s.pending != []
    ensures var c := Popped(s); ToRecord(w, c.state, c.action.call, c.action.lead, c.origin)
  {
    var calls := CallsOf(w.reply(s.reply));
    assert s.pending[0] == calls[s.taken] && s.pending[1..] == calls[s.taken + 1..];
  }

  /** What holds of a choice: its call is to be recorded, or nothing is pending. */
  ghost predicate ChoiceOk(w: World, limits: map<string, int>, c: Choice)
  {
    && RowsOk(w, c.state) && CountsOk(limits, c.state)
    && match c.action
       case CallTool(call, lead) => ToRecord(w, c.state, call, lead, c.origin)
       case Nothing => true
       case Raise => true
       case SendText(text) =>
         && c.state.pending == [] && PendingOk(w, c.state)
         && c.origin.SpokenBy? && w.reply(c.origin.r) == Text(text)
       case EndTurn => c.state.pending == [] && PendingOk(w, c.state)
  }

  lemma RepliedKeeps(w: World, limits: map<string, int>, s: State)
    requires RowsOk(w, s) && CountsOk(limits, s) && s.pending == []
    ensures ChoiceOk(w, limits, Replied(w, s))
  {
    var c := Replied(w, s);
    SameRowsKeep(w, limits, s, c.state);
    if w.reply(s.asked).Calls? && !w.cancelled(s.asked + 1) {
      var t := Noted(s, Asked(s.asked)).(asked := s.asked + 2, reply := s.asked, taken := 0,
                  pending := CallsOf(w.reply(s.asked)), lead := w.reply(s.asked).lead);
      assert CallsOf(w.reply(s.asked))[0..] == CallsOf(w.reply(s.asked));
      PoppedKeeps(w, t);
      hide RowsOk, CountsOk, ToRecord;
      assert c == Popped(t);
    }
  }

  lemma ChosenKeeps(w: World, limits: map<string, int>, s: State)
    requires Valid(w, limits, s)
    ensures ChoiceOk(w, limits, Chosen(w, s))
  {
    hide RowsOk, CountsOk, PendingOk, Replied, Popped, ToRecord;
    var c, t := Chosen(w, s), s.asked;
    SameRowsKeep(w, limits, s, s.(asked := t + 1));
    SameRowsKeep(w, limits, s, Noted(s.(asked := t + 2), Ordered(t + 1)));
    SameRowsKeep(w, limits, s, s.(asked := t + 3));
    SameRowsKeep(w, limits, s, Noted(s.(asked := t + 3), Lost(t + 2)));
    if w.cancelled(t) {
    } else if s.pending != [] {
      PoppedKeeps(w, s.(asked := t + 1));
      PoppedSame(s.(asked := t + 1));
      SameRowsKeep(w, limits, s, c.state);
    } else if w.forced(t + 1).Some? {
      ForcedToRecord(w, c.state, t + 1);
    } else if s.final.None? {
      RepliedKeeps(w, limits, s.(asked := t + 3));
    } else if !w.agentHasPriority(t + 2) {
      RepliedKeeps(w, limits, Noted(s.(asked := t + 3), Lost(t + 2)));
    }
  }

  lemma PoppedSame(s: State)
    requires s.pending != []
    ensures var t := Popped(s).state;
            t.rows == s.rows && t.origins == s.origins && t.counts == s.counts
            && t.fires == s.fires && Popped(s).action.CallTool?
  {
  }

  lemma ForcedToRecord(w: World, s: State, t: nat)
    requires s.pending == [] && w.forced(t).Some?
    ensures ToRecord(w, s, w.forced(t).value, None, Forced(t))
  {
  }

  lemma AbsorbedKeeps(w: World, limits: map<string, int>, s: State, call: ToolCall, lead: Option<string>, o: Origin)
    requires RowsOk(w, s) && CountsOk(limits, s) && ToRecord(w, s, call, lead, o)
    ensures Valid(w, limits, Absorbed(s, call, lead, o))
  {
    PairedPair(s.rows, call.id, call.name, lead);
    var newRows, newOrigins := [Call(call.id, call.name, lead), Result(call.id, call.name)], [o, Answer];
    var rows, origins := s.rows + newRows, s.origins + newOrigins;
    assert rows[|s.rows|] == newRows[0] && rows[|s.rows| + 1] == newRows[1];
    assert origins[|s.rows|] == o && origins[|s.rows| + 1] == Answer;
    assert RowSourced(w, rows, origins, |s.rows|) by {
      if o.OfReply? && o.k > 0 { assert origins[|s.rows| - 2] == s.origins[|s.rows| - 2]; }
    }
    SourcedMore(w, s.rows, s.origins, newRows, newOrigins);
    hide Paired, Sourced;
    assert origins[|origins| - 2] == o;
  }

  lemma EnactedKeeps(w: World, limits: map<string, int>, s: State, call: ToolCall, lead: Option<string>, o: Origin)
    requires RowsOk(w, s) && CountsOk(limits, s) && ToRecord(w, s, call, lead, o) && !Refused(limits, s, call)
    ensures var t := Enacted(limits, s, call.name); RowsOk(w, t) && CountsOk(limits, t) && ToRecord(w, t, call, lead, o)
  {
  }

  lemma VettedKeeps(w: World, limits: map<string, int>, s: State)
    requires Valid(w, limits, s) && s.pending == []
    ensures Valid(w, limits, Vetted(w, s)) && Vetted(w, s).pending == []
  {
    hide RowsOk, Strip;
    if s.fires < DOORMAN_FIRE_LIMIT {
      var v := w.verdict(s.asked);
      var fired := v.SendBack? || v.RequireTool? || v.Unknown?;
      var u := s.(asked := s.asked + 1, fires := if fired then s.fires + 1 else s.fires);
      RowsAlone(w, s, u);
      RowsAlone(w, s, Noted(u, Redriven(s.asked)));
      var back := Noted(u.(final := None), SentBack(s.asked));
      RowsAlone(w, s, back);
      if GateOf(v) == Again && v.SendBack? && Strip(v.note) != "" && !v.ephemeral {
        SourcedNote(w, s, s.asked);
        RecordedKeeps(w, limits, back, User(Strip(v.note)), Note(s.asked));
      }
    }
  }

  lemma SourcedNote(w: World, s: State, t: nat)
    requires RowsOk(w, s) && w.verdict(t).SendBack? && !w.verdict(t).ephemeral
    ensures |s.origins| == |s.rows|
            && RowSourced(w, s.rows + [User(Strip(w.verdict(t).note))], s.origins + [Note(t)], |s.rows|)
  {
    hide Strip;
  }

  lemma RowsAlone(w: World, s: State, t: State)
    requires RowsOk(w, s) && t.rows == s.rows && t.origins == s.origins
    ensures RowsOk(w, t)
  {
  }

  ghost predicate Kept(w: World, limits: map<string, int>, p: Passed)
  {
    RowsOk(w, p.state) && CountsOk(limits, p.state) && (p.exit == GoOn ==> PendingOk(w, p.state))
  }

  lemma AfterEnactKeeps(w: World, limits: map<string, int>, s: State, outcome: Outcome, ok: Exit, bad: Exit)
    requires Valid(w, limits, s)
    ensures Kept(w, limits, AfterEnact(w, s, outcome, ok, bad))
  {
    SameRowsKeep(w, limits, s, s.(asked := s.asked + 1));
    hide RowsOk, CountsOk, PendingOk;
  }

  lemma LeftKeeps(w: World, limits: map<string, int>, s: State)
    requires Valid(w, limits, s) && s.pending == []
    ensures Kept(w, limits, Left(w, s))
  {
    VettedKeeps(w, limits, s);
    hide RowsOk, CountsOk, PendingOk, Vetted, GateNow, AfterEnact;
    var t := Vetted(w, s);
    var u := Noted(t.(asked := t.asked + 1), Leaves(t.asked));
    SameRowsKeep(w, limits, t, u);
    AfterEnactKeeps(w, limits, u, w.outcome(t.asked), Stop, Fail);
  }

  lemma SpokenKeeps(w: World, limits: map<string, int>, s: State, text: string, o: Origin)
    requires Valid(w, limits, s) && s.pending == [] && o.SpokenBy? && w.reply(o.r) == Text(text)
    ensures Kept(w, limits, Spoken(w, s, text, o))
  {
    hide CountsOk, PendingOk, AfterEnact, Paired, Sourced;
    var u := Noted(s.(asked := s.asked + 1), Says(s.asked));
    SameRowsKeep(w, limits, s, u);
    SourcedText(w, s, text, o);
    hide RowsOk;
    RecordedKeeps(w, limits, u, Said(text), o);
    AfterEnactKeeps(w, limits, Recorded(u, Said(text), o), w.outcome(s.asked), GoOn, Fail);
  }

  lemma SourcedText(w: World, s: State, text: string, o: Origin)
    requires RowsOk(w, s) && o.SpokenBy? && w.reply(o.r) == Text(text)
    ensures |s.origins| == |s.rows| && RowSourced(w, s.rows + [Said(text)], s.origins + [o], |s.rows|)
  {
  }

  lemma TriedKeeps(w: World, limits: map<string, int>, s: State, call: ToolCall, lead: Option<string>, o: Origin)
    requires RowsOk(w, s) && CountsOk(limits, s) && ToRecord(w, s, call, lead, o)
    ensures Kept(w, limits, Tried(w, limits, s, call, lead, o))
  {
    if Refused(limits, s, call) {
      AbsorbedKeeps(w, limits, s, call, lead, o);
      hide Absorbed, RowsOk, CountsOk, PendingOk, ToRecord;
    } else {
      EnactedKeeps(w, limits, s, call, lead, o);
      hide Absorbed, RowsOk, CountsOk, PendingOk, ToRecord, Enacted, Refused, AfterEnact;
      var t := Enacted(limits, s, call.name);
      AbsorbedKeeps(w, limits, t, call, lead, o);
      AfterEnactKeeps(w, limits, Absorbed(t, call, lead, o), Done, GoOn, GoOn);
    }
  }

  lemma LaterKeeps(w: World, limits: map<string, int>, s: State, n: nat)
    ensures RowsOk(w, s) ==> RowsOk(w, Later(s, n))
    ensures CountsOk(limits, s) ==> CountsOk(limits, Later(s, n))
    ensures PendingOk(w, s) ==> PendingOk(w, Later(s, n))
    ensures Later(s, n).pending == s.pending
  {
  }

  lemma ActedKeeps(w: World, limits: map<string, int>, s: State, action: Action, o: Origin)
    requires ChoiceOk(w, limits, Choice(action, o, s))
    ensures Kept(w, limits, Acted(w, limits, s, action, o))
  {
    hide RowsOk, CountsOk, PendingOk, Left, Spoken, Tried, ToRecord;
    match action
    case Nothing =>
    case Raise =>
    case EndTurn => LeftKeeps(w, limits, s);
    case SendText(text) => SpokenKeeps(w, limits, s, text, o);
    case CallTool(call, lead) => TriedKeeps(w, limits, s, call, lead, o);
  }

  lemma ChoiceLater(w: World, limits: map<string, int>, c: Choice)
    requires ChoiceOk(w, limits, c)
    ensures ChoiceOk(w, limits, Choice(c.action, c.origin, Later(c.state, 1)))
  {
    LaterKeeps(w, limits, c.state, 1);
    hide RowsOk, CountsOk, PendingOk;
  }

  /** One pass keeps rows, budgets and what is pending in order. */
  lemma PassKeeps(w: World, limits: map<string, int>, s: State)
    requires Valid(w, limits, s)
    ensures Kept(w, limits, PassOf(w, limits, s))
  {
    hide Valid, Drained, Chosen, Acted, Later, ChoiceOk;
    DrainedKeeps(w, limits, s);
    ChosenKeeps(w, limits, Drained(w, s));
    var c := Chosen(w, Drained(w, s));
    ChoiceLater(w, limits, c);
    RowsOfChoice(w, limits, c);
    RowsOfChoice(w, limits, Choice(c.action, c.origin, Later(c.state, 1)));
    ActedKeeps(w, limits, Later(c.state, 1), c.action, c.origin);
    hide RowsOk, CountsOk;
  }

  lemma RowsOfChoice(w: World, limits: map<string, int>, c: Choice)
    requires ChoiceOk(w, limits, c)
    ensures RowsOk(w, c.state) && CountsOk(limits, c.state)
  {
  }

  lemma PassesOnce(w: World, limits: map<string, int>, s: State, n: nat)
    ensures Passes(w, limits, s, n) ==
              if n == 0 then Passed(s, GoOn)
              else if w.cancelled(s.asked) || !w.agentHasPriority(s.asked + 1) then Passed(Later(s, 2), GoOn)
              else if PassOf(w, limits, Later(s, 2)).exit != GoOn then PassOf(w, limits, Later(s, 2))
              else Passes(w, limits, PassOf(w, limits, Later(s, 2)).state, n - 1)
  {
    hide PassOf, Later;
  }

  lemma KeptIsValid(w: World, limits: map<string, int>, s: State, n: nat)
    ensures Kept(w, limits, Passed(s, GoOn)) <==> Valid(w, limits, s)
    ensures Valid(w, limits, s) ==> Valid(w, limits, Later(s, n))
  {
    LaterKeeps(w, limits, s, n);
    hide RowsOk, CountsOk, PendingOk, Later;
  }

  lemma {:induction false} PassesKeep(w: World, limits: map<string, int>, s: State, n: nat)
    requires Valid(w, limits, s)
    ensures Kept(w, limits, Passes(w, limits, s, n))
    decreases n
  {
    hide *;
    KeptIsValid(w, limits, s, 2);
    KeptIsValid(w, limits, Later(s, 2), 0);
    PassesOnce(w, limits, s, n);
    PassKeeps(w, limits, Later(s, 2));
    var p := PassOf(w, limits, Later(s, 2));
    if n > 0 && p.exit == GoOn {
      KeptIsValid(w, limits, p.state, 0);
      PassesKeep(w, limits, p.state, n - 1);
    }
  }

  /** Whether in order, up to what is pending, which no longer matters. */
  ghost predicate InOrder(w: World, limits: map<string, int>, s: State)
  {
    Paired(s.rows) && Sourced(w, s.rows, s.origins) && CountsOk(limits, s)
  }

  lemma OverBudgetKeeps(w: World, limits: map<string, int>, s: State)
    requires RowsOk(w, s) && CountsOk(limits, s)
    ensures RowsOk(w, OverBudget(w, s).state) && CountsOk(limits, OverBudget(w, s).state)
  {
    hide RowsOk, Strip;
    var t := OverBudget(w, s).state;
    if t.rows == s.rows && t.origins == s.origins {
      RowsAlone(w, s, t);
    } else {
      var u := t.(rows := s.rows, origins := s.origins);
      var n := if s.fires < DOORMAN_FIRE_LIMIT then s.asked + 1 else s.asked;
      RowsAlone(w, s, u);
      SourcedLastWords(w, u, n);
      RecordedKeeps(w, limits, u, Said(w.lastWords(n)), LastWords(n));
      assert t == Recorded(u, Said(w.lastWords(n)), LastWords(n));
    }
  }

  lemma SourcedLastWords(w: World, s: State, t: nat)
    requires RowsOk(w, s)
    ensures |s.origins| == |s.rows|
            && RowSourced(w, s.rows + [Said(w.lastWords(t))], s.origins + [LastWords(t)], |s.rows|)
  {
  }

  lemma EndedKeeps(w: World, limits: map<string, int>, s: State)
    requires RowsOk(w, s) && CountsOk(limits, s)
    ensures RowsOk(w, Ended(w, s).state) && CountsOk(limits, Ended(w, s).state)
  {
    LaterKeeps(w, limits, s, 1);
    LaterKeeps(w, limits, s, 2);
    SameRowsKeep(w, limits, Later(s, 2), Noted(Later(s, 2), Leaves(s.asked + 1)));
    hide RowsOk, CountsOk, PendingOk, Later;
  }

  lemma WrappedUpKeeps(w: World, limits: map<string, int>, p: Passed)
    requires Kept(w, limits, p)
    ensures RowsOk(w, WrappedUp(w, p).state) && CountsOk(limits, WrappedUp(w, p).state)
  {
    var s := p.state;
    LaterKeeps(w, limits, s, 1);
    LaterKeeps(w, limits, s, 2);
    LaterKeeps(w, limits, s, 3);
    hide RowsOk, CountsOk, PendingOk, OverBudget, Later, Ended;
    EndedKeeps(w, limits, Later(s, 3));
    OverBudgetKeeps(w, limits, Later(s, 3));
    EndedKeeps(w, limits, OverBudget(w, Later(s, 3)).state);
  }

  /** Over every series of replies, outcomes, verdicts, cancels and messages: call
      and result rows come in pairs; each call row is one a hook queued, or a reply's
      first calls stand in order with nothing between; no registered tool is counted
      more often than its limit; and at most three verdicts of the doormen are. */
  lemma DrivenInOrder(w: World, limits: map<string, int>, maxToolCalls: nat, asked: nat)
    ensures InOrder(w, limits, Driven(w, limits, maxToolCalls, asked).state)
  {
    var s := Begun(asked);
    var p := Passes(w, limits, s, MostPasses(maxToolCalls));
    assert Valid(w, limits, s);
    PassesKeep(w, limits, s, MostPasses(maxToolCalls));
    WrappedUpKeeps(w, limits, p);
    hide Passes, WrappedUp, Paired, Sourced;
  }

  // ---- The loop -----------------------------------------------------------------------

  class Loop {
    const limits: map<string, int>      // max_calls of each registered tool
    const maxToolCalls: nat
    const world: World
    var asked: nat
    var pendingToolCalls: seq<ToolCall>
    var assistantText: Option<string>
    var finalText: Option<string>
    var toolCallCounts: map<string, nat>
    var doormanFires: nat
    var rows: seq<Row>                  // appended in this drive
    ghost var log: seq<Event>           // what happened in this drive

    /** These fields are those of `s`. */
    ghost predicate Is(s: State)
      reads this
    {
      && asked == s.asked && pendingToolCalls == s.pending && assistantText == s.lead && finalText == s.final
      && toolCallCounts == s.counts && doormanFires == s.fires && rows == s.rows && log == s.log
    }

    constructor (limits: map<string, int>, maxToolCalls: nat, world: World)
      ensures this.limits == limits && this.maxToolCalls == maxToolCalls && this.world == world
    {
      this.limits, this.maxToolCalls, this.world := limits, maxToolCalls, world;
      asked, pendingToolCalls, assistantText, finalText, toolCallCounts := 0, [], None, None, map[];
      doormanFires, rows, log := 0, [], [];
    }

    method Ask(question: nat -> bool) returns (answer: bool)
      modifies this`asked
      ensures answer == question(old(asked)) && asked == old(asked) + 1
    {
      answer := question(asked);
      asked := asked + 1;
    }

    method DrainQueuedMessages(ghost s: State)
      requires Is(s)
      modifies this`rows, this`finalText, this`asked, this`log
      ensures Is(Drained(world, s))
      ensures old(pendingToolCalls) != [] ==> rows == old(rows) && finalText == old(finalText)
      ensures old(pendingToolCalls) == [] ==>
                && rows == old(rows) + Users(world.queued(old(asked)))
                && finalText == if world.queued(old(asked)) == [] then old(finalText) else None
    {
      if pendingToolCalls != [] {
        return;
      }
      var queued := world.queued(asked);
      asked := asked + 1;
      if queued == [] {
        return;
      }
      ghost var t := Noted(s.(asked := s.asked + 1), Heard(s.asked));
      log := log + [Heard(s.asked)];
      assert queued[..0] == [];
      for i := 0 to |queued|
        invariant Is(RecordedAll(t, s.asked, queued[..i])) && rows == old(rows) + Users(queued[..i])
      {
        rows := rows + [User(queued[i])];
        assert queued[..i + 1][..i] == queued[..i];
      }
      assert queued[..|queued|] == queued;
      finalText := None;
    }

    // ---- Choosing the next action ----------------------------------------------

    method NextAction(ghost s: State) returns (a: Action)
      requires Is(s)
      modifies this`asked, this`pendingToolCalls, this`assistantText, this`finalText, this`log
      ensures a == Chosen(world, s).action && Is(Chosen(world, s).state)
      ensures Documented(world, old(asked), old(pendingToolCalls), old(assistantText), old(finalText), a)
      ensures a.SendText? ==> finalText == Some(a.text)
    {
      ChosenIsDocumented(world, s);
      hide Popped, Replied, Documented;
      var cancelled := Ask(world.cancelled);
      if cancelled {
        return Nothing;
      }
      if pendingToolCalls != [] {
        a := PopCall(s.(asked := s.asked + 1));
        return;
      }
      var forced := world.forced(asked);
      asked := asked + 1;
      if forced.Some? {
        log := log + [Ordered(asked - 1)];
        return CallTool(forced.value, None);
      }
      var agents := Ask(world.agentHasPriority);
      if finalText.Some? && agents {
        return EndTurn;
      }
      ghost var t := s.(asked := s.asked + 3);
      if finalText.Some? {
        log, t := log + [Lost(asked - 1)], Noted(t, Lost(asked - 1));
      }
      a := AskModel(t);
    }

    /** One model call; the calls it asks for become pending, and the first is taken. */
    method AskModel(ghost s: State) returns (a: Action)
      requires Is(s)
      modifies this`asked, this`pendingToolCalls, this`assistantText, this`finalText, this`log
      ensures a == Replied(world, s).action && Is(Replied(world, s).state)
      ensures AsReplied(world, old(asked), a) && (a.SendText? ==> finalText == Some(a.text))
    {
      var response := world.reply(asked);
      log := log + [Asked(asked)];
      asked := asked + 1;
      if response.NoReply? {
        return Raise;
      }
      if response.Text? {
        finalText := Some(response.text);
        return SendText(response.text);
      }
      pendingToolCalls, assistantText := [response.first] + response.more, response.lead;
      var cancelled := Ask(world.cancelled);
      if cancelled {
        return Nothing;
      }
      a := PopCall(Noted(s, Asked(s.asked)).(asked := s.asked + 2, reply := s.asked, taken := 0,
        pending := pendingToolCalls, lead := assistantText));
    }

    method PopCall(ghost s: State) returns (a: Action)
      requires Is(s) && pendingToolCalls != []
      modifies this`pendingToolCalls, this`assistantText
      ensures a == Popped(s).action && Is(Popped(s).state)
      ensures a == CallTool(old(pendingToolCalls)[0], old(assistantText))
      ensures pendingToolCalls == old(pendingToolCalls)[1..] && assistantText == None
    {
      a := CallTool(pendingToolCalls[0], assistantText);
      pendingToolCalls, assistantText := pendingToolCalls[1..], None;
    }

    // ---- Enacting ------------------------------------------------------------------

    /** Past its limit a registered tool is refused; otherwise the call counts. */
    method ToolBudgetError(name: string) returns (refused: bool)
      modifies this`toolCallCounts
      ensures refused <==> name in limits && Count(old(toolCallCounts), name) >= limits[name]
      ensures toolCallCounts == if name in limits && !refused
                                then old(toolCallCounts)[name := Count(old(toolCallCounts), name) + 1]
                                  else old(toolCallCounts)
    {
      if name !in limits {
        return false;
      }
      var used := Count(toolCallCounts, name);
      if used >= limits[name] {
        return true;
      }
      toolCallCounts := toolCallCounts[name := used + 1];
      return false;
    }

    /** Garbage arguments are refused before the limit is looked at. */
    method Refuse(call: ToolCall) returns (refused: bool)
      modifies this`toolCallCounts
      ensures refused <==> !call.validArguments
                           || (call.name in limits && Count(old(toolCallCounts), call.name) >= limits[call.name])
      ensures toolCallCounts == if call.name in limits && !refused
                                then old(toolCallCounts)[call.name := Count(old(toolCallCounts), call.name) + 1]
                                  else old(toolCallCounts)
    {
      refused := !call.validArguments;
      if !refused {
        refused := ToolBudgetError(call.name);
      }
    }

    method Enact() returns (outcome: Outcome)
      modifies this`asked
      ensures outcome == world.outcome(old(asked)) && asked == old(asked) + 1
    {
      outcome := world.outcome(asked);
      asked := asked + 1;
    }

    method AbsorbCall(call: ToolCall, lead: Option<string>)
      modifies this`rows
      ensures rows == old(rows) + [Call(call.id, call.name, lead), Result(call.id, call.name)]
    {
      rows := rows + [Call(call.id, call.name, lead)];
      rows := rows + [Result(call.id, call.name)];
      assert rows == old(rows) + [Call(call.id, call.name, lead), Result(call.id, call.name)];
    }

    /** One tool call: refused by the loop itself, or enacted. */
    method RunCall(call: ToolCall, lead: Option<string>, ghost s: State, ghost o: Origin)
      returns (refused: bool, outcome: Outcome)
      requires Is(s)
      modifies this`asked, this`toolCallCounts, this`rows, this`log
      ensures Is(Called(world, limits, s, call, lead, o))
      ensures refused == Refused(limits, s, call) && outcome == if refused then NotOk else world.outcome(old(asked))
      ensures refused <==> !call.validArguments
                           || (call.name in limits && Count(old(toolCallCounts), call.name) >= limits[call.name])
      ensures log == old(log) + if refused then [] else [Ran(old(asked), call.name)]
      ensures rows == old(rows) + if outcome.Raised? then []
                                  else [Call(call.id, call.name, lead), Result(call.id, call.name)]
    {
      CalledExactly(world, limits, s, call, lead, o);
      hide Called;
      refused := Refuse(call);
      outcome := NotOk;
      if !refused {
        outcome := Enact();
        log := log + [Ran(asked - 1, call.name)];
      }
      if !outcome.Raised? {
        AbsorbCall(call, lead);
      }
    }

    // ---- The exit --------------------------------------------------------------------

    method DoormanGate(ghost s: State) returns (gate: Gate)
      requires Is(s)
      modifies this`asked, this`doormanFires, this`rows, this`finalText, this`log
      ensures gate == GateNow(world, s) && Is(Vetted(world, s))
      ensures VettedAs(world, old(asked), old(doormanFires), old(rows), old(finalText), gate,
                       doormanFires, rows, finalText)
    {
      VettedExactly(world, s);
      hide Strip, VettedAs;
      if doormanFires >= DOORMAN_FIRE_LIMIT {
        return LetGo;
      }
      var verdict := world.verdict(asked);
      asked := asked + 1;
      match verdict {
        case Abstain => return LetGo;
        case Allow => return LetGo;
        case Redrive =>
          log := log + [Redriven(asked - 1)];
          return RedriveTurn;
        case SendBack(note, ephemeral) =>
          doormanFires := doormanFires + 1;
          var trimmed := Strip(note);
          if trimmed != "" && !ephemeral {
            rows := rows + [User(trimmed)];
          }
          finalText := None;
          log := log + [SentBack(asked - 1)];
          return Again;
        case RequireTool(known) =>
          doormanFires := doormanFires + 1;
          if !known {
            return LetGo;
          }
          finalText := None;
          log := log + [SentBack(asked - 1)];
          return Again;
        case Unknown =>
          doormanFires := doormanFires + 1;
          return LetGo;
      }
    }

    method AskDoormen() returns (verdict: Verdict)
      modifies this`asked
      ensures if doormanFires < DOORMAN_FIRE_LIMIT then verdict == world.verdict(old(asked)) && asked == old(asked) + 1
              else verdict == Abstain && asked == old(asked)
    {
      verdict := Abstain;
      if doormanFires < DOORMAN_FIRE_LIMIT {
        verdict := world.verdict(asked);
        asked := asked + 1;
      }
    }

    /** Out of budget with the turn still the agent's: the doormen are asked once
        more, and unless they say otherwise a last text is said. */
    method FinishOverBudget(ghost s: State) returns (raised: bool)
      requires Is(s)
      modifies this`asked, this`doormanFires, this`rows, this`finalText, this`log
      ensures Is(OverBudget(world, s).state) && (raised <==> OverBudget(world, s).exit == Crash)
      ensures rows == old(rows) + if Waved(world, s) || raised then [] else [Said(world.lastWords(asked - 2))]
      ensures finalText == if Waved(world, s) then old(finalText) else Some(world.lastWords(asked - 2))
    {
      OverBudgetSays(world, s);
      hide Strip, Waved, LastSaid;
      var verdict := AskDoormen();
      if verdict.Allow? || verdict.Redrive? {
        return false;
      }
      if verdict.RequireTool? || (verdict.SendBack? && Strip(verdict.note) != "") {
        doormanFires := doormanFires + 1;
      }
      raised := SayLast(s.(asked := asked, fires := doormanFires));
    }

    method SayLast(ghost s: State) returns (raised: bool)
      requires Is(s)
      modifies this`asked, this`rows, this`finalText, this`log
      ensures Is(LastSaid(world, s).state) && (raised <==> LastSaid(world, s).exit == Crash)
    {
      var text := world.lastWords(asked);
      asked := asked + 1;
      finalText := Some(text);
      var outcome := Enact();
      log := log + [LastSays(asked - 1)];
      if outcome.Raised? {
        return true;
      }
      rows := rows + [Said(text)];
      return false;
    }

    // ---- The drive -----------------------------------------------------------------------

    /** What one pass of the loop decides. */
    method Pass(ghost s: State) returns (exit: Exit)
      requires Is(s)
      modifies this`asked, this`pendingToolCalls, this`assistantText, this`finalText, this`toolCallCounts,
               this`doormanFires, this`rows, this`log
      ensures Is(PassOf(world, limits, s).state) && exit == PassOf(world, limits, s).exit
    {
      hide Drained, Chosen, Acted;
      DrainQueuedMessages(s);
      ghost var c := Chosen(world, Drained(world, s));
      var action := NextAction(Drained(world, s));
      if action.Nothing? {
        return Stop;
      }
      if action.Raise? {
        return Crash;
      }
      var cancelled := Ask(world.cancelled);
      if cancelled {
        return Stop;
      }
      exit := Act(action, Later(c.state, 1), c.origin);
    }

    method Act(action: Action, ghost s: State, ghost o: Origin) returns (exit: Exit)
      requires Is(s)
      modifies this`asked, this`finalText, this`toolCallCounts, this`doormanFires, this`rows, this`log
      ensures Is(Acted(world, limits, s, action, o).state) && exit == Acted(world, limits, s, action, o).exit
    {
      hide Left, Spoken, Tried;
      match action {
        case Nothing => exit := Stop;
        case Raise => exit := Crash;
        case EndTurn => exit := Leave(s);
        case SendText(text) => exit := Speak(text, s, o);
        case CallTool(call, lead) => exit := Try(call, lead, s, o);
      }
    }

    /** Whether a tool asked for the turn to be driven again, else as the outcome says. */
    method Conclude(outcome: Outcome, ok: Exit, bad: Exit, ghost s: State) returns (exit: Exit)
      requires Is(s)
      modifies this`asked
      ensures Is(AfterEnact(world, s, outcome, ok, bad).state) && exit == AfterEnact(world, s, outcome, ok, bad).exit
    {
      var restart := Ask(world.restartRequested);
      exit := if restart then Restart else if outcome.Done? then ok else bad;
    }

    method Leave(ghost s: State) returns (exit: Exit)
      requires Is(s)
      modifies this`asked, this`finalText, this`doormanFires, this`rows, this`log
      ensures Is(Left(world, s).state) && exit == Left(world, s).exit
    {
      hide Vetted, GateNow, AfterEnact;
      ghost var t := Vetted(world, s);
      var gate := DoormanGate(s);
      if gate == Again {
        return GoOn;
      }
      if gate == RedriveTurn {
        return Restart;
      }
      var ended := Enact();
      log := log + [Leaves(asked - 1)];
      if ended.Raised? {
        return Crash;
      }
      exit := Conclude(ended, Stop, Fail, Noted(t.(asked := t.asked + 1), Leaves(t.asked)));
    }

    method Speak(text: string, ghost s: State, ghost o: Origin) returns (exit: Exit)
      requires Is(s)
      modifies this`asked, this`rows, this`log
      ensures Is(Spoken(world, s, text, o).state) && exit == Spoken(world, s, text, o).exit
    {
      hide AfterEnact;
      var said := Enact();
      log := log + [Says(asked - 1)];
      if said.Raised? {
        return Crash;
      }
      rows := rows + [Said(text)];
      exit := Conclude(said, GoOn, Fail, Recorded(Noted(s.(asked := s.asked + 1), Says(s.asked)), Said(text), o));
    }

    method Try(call: ToolCall, lead: Option<string>, ghost s: State, ghost o: Origin) returns (exit: Exit)
      requires Is(s)
      modifies this`asked, this`toolCallCounts, this`rows, this`log
      ensures Is(Tried(world, limits, s, call, lead, o).state) && exit == Tried(world, limits, s, call, lead, o).exit
    {
      hide Called, Refused, AfterEnact;
      var refused, outcome := RunCall(call, lead, s, o);
      if refused {
        return GoOn;
      }
      if outcome.Raised? {
        return Crash;
      }
      exit := Conclude(Done, GoOn, GoOn, Called(world, limits, s, call, lead, o));
    }

    /** The drive is what `Driven` says, and so in order. */
    method Drive() returns (raised: bool, ghost end: State)
      modifies this`asked, this`pendingToolCalls, this`assistantText, this`finalText, this`toolCallCounts,
               this`doormanFires, this`rows, this`log
      ensures var p := Driven(world, limits, maxToolCalls, old(asked));
              end == p.state && (raised <==> p.exit == Crash)
      ensures Is(end) && InOrder(world, limits, end)
    {
      hide PassOf, InOrder, WrappedUp;
      pendingToolCalls, assistantText, finalText, toolCallCounts, doormanFires, rows := [], None, None, map[], 0, [];
      log := [];
      ghost var s := Begun(asked);
      var most := MostPasses(maxToolCalls);
      var n := most;
      var exit := GoOn;
      while exit == GoOn && n > 0
        invariant 0 <= n <= most && Is(s)
        invariant Passes(world, limits, Begun(old(asked)), most) ==
                    if exit == GoOn then Passes(world, limits, s, n) else Passed(s, exit)
        decreases n, exit == GoOn
      {
        var cancelled := Ask(world.cancelled);
        var agents := Ask(world.agentHasPriority);
        ghost var t := Later(s, 2);
        if cancelled || !agents {
          s, n := t, 0;
          break;
        }
        exit := Pass(t);
        s, n := PassOf(world, limits, t).state, n - 1;
      }
      assert Passes(world, limits, Begun(old(asked)), most) == Passed(s, exit);
      raised := WrapUp(exit, s);
      end := WrappedUp(world, Passed(s, exit)).state;
      DrivenInOrder(world, limits, maxToolCalls, old(asked));
    }

    /** After the last pass: a turn the agent still holds is wrapped up and ended. */
    method WrapUp(exit: Exit, ghost s: State) returns (raised: bool)
      requires Is(s)
      modifies this`asked, this`doormanFires, this`rows, this`finalText, this`log
      ensures Is(WrappedUp(world, Passed(s, exit)).state)
      ensures raised <==> WrappedUp(world, Passed(s, exit)).exit == Crash
    {
      hide OverBudget, Ended;
      if exit == Crash {
        return true;
      }
      var agents := Ask(world.agentHasPriority);
      if !agents || exit == Restart {
        return false;
      }
      var restarting := Ask(world.restartRequested);
      if restarting {
        return false;
      }
      var cancelled := Ask(world.cancelled);
      if cancelled || exit == Fail {
        raised := EndTurnNow(Later(s, 3));
        return;
      }
      raised := FinishOverBudget(Later(s, 3));
      if !raised {
        raised := EndTurnNow(OverBudget(world, Later(s, 3)).state);
      }
    }

    method EndTurnNow(ghost s: State) returns (raised: bool)
      requires Is(s)
      modifies this`asked, this`log
      ensures Is(Ended(world, s).state) && (raised <==> Ended(world, s).exit == Crash)
    {
      var restarting := Ask(world.restartRequested);
      if restarting {
        return false;
      }
      var outcome := Enact();
      log := log + [Leaves(asked - 1)];
      return outcome.Raised?;
    }
  }
}
