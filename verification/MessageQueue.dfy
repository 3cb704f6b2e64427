/** Messages that arrive while a session's turn is running. A message is known
    by its number in the order of acceptance. */
module MessageQueue {

  datatype Step = Sent | Cancelled | Drained | RowWritten | TurnEnded | FollowedUp

  /** What is accepted while a turn runs is pending; the loop takes all of it and
      records row by row. The last three fields tell what was dropped, recorded at
      once with no turn running, and overtaken by such a message while pending. */
  datatype State = State(busy: bool, pending: seq<nat>, taken: seq<nat>, recorded: seq<nat>, next: nat,
                         dropped: set<nat>, direct: set<nat>, overtaken: set<nat>)

  const START := State(false, [], [], [], 0, {}, {}, {})

  function Elems(s: seq<nat>): set<nat>
  {
    set id | id in s
  }

  function Next(s: State, step: Step): State
  {
    match step
    case Sent =>
      if s.busy then s.(pending := s.pending + [s.next], next := s.next + 1)
      else s.(recorded := s.recorded + [s.next], busy := true, next := s.next + 1, direct := s.direct + {s.next},
              overtaken := s.overtaken + Elems(s.pending))
    case Cancelled => if s.busy then s.(pending := [], dropped := s.dropped + Elems(s.pending)) else s
    case Drained => if s.busy && s.taken == [] then s.(taken := s.pending, pending := []) else s
    case RowWritten =>
      if s.busy && s.taken != [] then s.(recorded := s.recorded + [s.taken[0]], taken := s.taken[1..]) else s
    case TurnEnded => if s.taken == [] then s.(busy := false) else s
    case FollowedUp =>
      if !s.busy && s.pending != []
         then s.(recorded := s.recorded + [s.pending[0]], pending := s.pending[1..], busy := true)
      else s
  }

  function After(steps: seq<Step>): State
  {
    if steps == [] then START else Next(After(steps[..|steps| - 1]), steps[|steps| - 1])
  }

  /** All messages that are somewhere, in the order they stand. */
  function Held(s: State): seq<nat>
  {
    s.recorded + s.taken + s.pending
  }

  // ---- What every run keeps --------------------------------------------------

  ghost predicate Increasing(s: seq<nat>)
  {
    forall i, j :: 0 <= i < j < |s| ==> s[i] < s[j]
  }

  ghost predicate Once(s: seq<nat>)
  {
    forall i, j :: 0 <= i < j < |s| ==> s[i] != s[j]
  }

  /** Each message accepted so far is in exactly one place. */
  ghost predicate Accounted(held: seq<nat>, dropped: set<nat>, next: nat)
  {
    && Once(held) && (forall id: nat :: id < next <==> id in held || id in dropped)
    && (forall id :: id in held ==> id !in dropped)
  }

  /** Those of `s` that were queued, in order. */
  function Queued(s: seq<nat>, direct: set<nat>): seq<nat>
  {
    if s == [] then []
    else Queued(s[..|s| - 1], direct) + if s[|s| - 1] in direct then [] else [s[|s| - 1]]
  }

  /** An older message stands after a younger one only if it was overtaken, and
      each that was does. */
  ghost predicate Explained(held: seq<nat>, overtaken: set<nat>)
  {
    && (forall i, j :: 0 <= i < j < |held| && held[i] > held[j] ==> held[j] in overtaken)
    && (forall j :: 0 <= j < |held| && held[j] in overtaken ==> Behind(held, j))
  }

  ghost predicate Behind(held: seq<nat>, j: nat)
    requires j < |held|
  {
    exists i :: 0 <= i < j && held[i] > held[j]
  }

  ghost predicate Kept(held: seq<nat>, s: State)
  {
    && Accounted(held, s.dropped, s.next) && Explained(held, s.overtaken) && Increasing(Queued(held, s.direct))
    && (forall id :: id in s.direct || id in s.overtaken ==> id < s.next)
  }

  predicate Under(s: seq<nat>, n: nat)
  {
    forall id :: id in s ==> id < n
  }

  lemma {:induction false} QueuedOfBoth(a: seq<nat>, b: seq<nat>, direct: set<nat>)
    ensures Queued(a + b, direct) == Queued(a, direct) + Queued(b, direct)
  {
    if b == [] {
      assert a + b == a;
    } else {
      QueuedOfBoth(a, b[..|b| - 1], direct);
      assert (a + b)[..|a + b| - 1] == a + b[..|b| - 1];
    }
  }

  lemma {:induction false} QueuedAmong(s: seq<nat>, direct: set<nat>, n: nat)
    requires Under(s, n)
    ensures Queued(s, direct + {n}) == Queued(s, direct) && Under(Queued(s, direct), n)
  {
    if s != [] {
      var rest, last := s[..|s| - 1], s[|s| - 1];
      assert last in s && forall id :: id in rest ==> id in s;
      QueuedAmong(rest, direct, n);
    }
  }

  lemma QueuedOne(n: nat, direct: set<nat>)
    ensures Queued([n], direct) == if n in direct then [] else [n]
  {
    assert [n][..0] == [];
  }

  lemma IncreasingNext(s: seq<nat>, n: nat)
    requires Increasing(s) && Under(s, n)
    ensures Increasing(s + [n])
  {
    assert forall i :: 0 <= i < |s| ==> s[i] in s;
  }

  lemma QueuedNext(held: seq<nat>, direct: set<nat>, n: nat)
    requires Increasing(Queued(held, direct)) && Under(held, n) && n !in direct
    ensures Increasing(Queued(held + [n], direct))
  {
    QueuedAmong(held, direct, n);
    QueuedOfBoth(held, [n], direct);
    QueuedOne(n, direct);
    hide Queued, Under;
    IncreasingNext(Queued(held, direct), n);
    hide Increasing;
    assert Queued(held + [n], direct) == Queued(held, direct) + [n];
  }

  lemma QueuedAhead(a: seq<nat>, b: seq<nat>, direct: set<nat>, n: nat)
    requires Under(a + b, n)
    ensures Queued(a + [n] + b, direct + {n}) == Queued(a + b, direct)
  {
    QueuedAmong(a + b, direct, n);
    QueuedOfBoth(a, b, direct + {n});
    QueuedOfBoth(a, [n], direct + {n});
    QueuedOfBoth(a + [n], b, direct + {n});
    QueuedOne(n, direct + {n});
    hide Queued;
  }

  lemma IncreasingPrefix(s: seq<nat>, t: seq<nat>)
    requires Increasing(s + t)
    ensures Increasing(s)
  {
    forall i, j | 0 <= i < j < |s|
      ensures s[i] < s[j]
    {
      assert (s + t)[i] < (s + t)[j];
    }
  }

  lemma AccountedNext(held: seq<nat>, dropped: set<nat>, next: nat)
    requires Accounted(held, dropped, next)
    ensures Accounted(held + [next], dropped, next + 1)
  {
    assert next !in held && next !in dropped;
    assert forall id :: id in held + [next] <==> id in held || id == next;
  }

  lemma AccountedAhead(a: seq<nat>, b: seq<nat>, dropped: set<nat>, next: nat)
    requires Accounted(a + b, dropped, next)
    ensures Accounted(a + [next] + b, dropped, next + 1)
  {
    var held, more := a + b, a + [next] + b;
    assert next !in held && next !in dropped;
    assert forall id :: id in held <==> id in a || id in b;
    assert forall id :: id in more <==> id in held || id == next;
    forall i, j | 0 <= i < j < |more|
      ensures more[i] != more[j]
    {
      assert i != |a| ==> more[i] == held[if i < |a| then i else i - 1];
      assert j != |a| ==> more[j] == held[if j < |a| then j else j - 1];
    }
  }

  lemma AccountedDropped(kept: seq<nat>, gone: seq<nat>, dropped: set<nat>, next: nat)
    requires Accounted(kept + gone, dropped, next)
    ensures Accounted(kept, dropped + Elems(gone), next)
  {
    var all := kept + gone;
    assert forall id :: id in all <==> id in kept || id in gone;
    forall i, j | 0 <= i < j < |kept|
      ensures kept[i] != kept[j]
    {
      assert all[i] != all[j];
    }
    forall i, k | 0 <= i < |kept| && 0 <= k < |gone|
      ensures kept[i] != gone[k]
    {
      assert all[i] != all[|kept| + k];
    }
  }

  /** Where the k-th of `a + b` stands once `n` is put between. */
  lemma Shifted(a: seq<nat>, b: seq<nat>, n: nat, k: nat)
    requires k < |a + b| && Under(a + b, n)
    ensures (a + b)[k] < n && (a + [n] + b)[if k < |a| then k else k + 1] == (a + b)[k]
    ensures (a + [n] + b)[|a|] == n
  {
    assert (a + b)[k] in a + b;
  }

  lemma AheadIsOlder(a: seq<nat>, b: seq<nat>, overtaken: set<nat>, n: nat, i: nat, j: nat)
    requires Explained(a + b, overtaken) && Under(a + b, n)
    requires i < j < |a + [n] + b| && (a + [n] + b)[i] > (a + [n] + b)[j]
    ensures (a + [n] + b)[j] in overtaken || (a + [n] + b)[j] in b
  {
    if j < |a| {
      Shifted(a, b, n, i);
      Shifted(a, b, n, j);
    } else if j == |a| {
      Shifted(a, b, n, i);
    } else {
      assert (a + [n] + b)[j] == b[j - |a| - 1];
    }
  }

  lemma OnceApart(a: seq<nat>, b: seq<nat>, j: nat)
    requires Once(a + b) && j < |a|
    ensures a[j] !in b
  {
    forall k | 0 <= k < |b|
      ensures b[k] != a[j]
    {
      assert (a + b)[j] != (a + b)[|a| + k];
    }
  }

  lemma OlderIsBehind(a: seq<nat>, b: seq<nat>, overtaken: set<nat>, n: nat, j: nat)
    requires Explained(a + b, overtaken) && Once(a + b) && Under(a + b, n)
    requires j < |a + [n] + b| && j != |a| && ((a + [n] + b)[j] in overtaken || (a + [n] + b)[j] in b)
    ensures Behind(a + [n] + b, j)
  {
    var held, more := a + b, a + [n] + b;
    if j > |a| {
      Shifted(a, b, n, j - 1);
      assert more[|a|] > more[j];
    } else {
      Shifted(a, b, n, j);
      OnceApart(a, b, j);
      assert Behind(held, j);
      var i :| 0 <= i < j && held[i] > held[j];
      assert more[i] > more[j];
    }
  }

  lemma ExplainedAhead(a: seq<nat>, b: seq<nat>, overtaken: set<nat>, n: nat)
    requires Explained(a + b, overtaken) && Under(a + b, n) && n !in overtaken && Once(a + b)
    ensures Explained(a + [n] + b, overtaken + Elems(b))
  {
    var more := a + [n] + b;
    assert forall id :: id in b ==> id in a + b;
    assert more[|a|] == n && n !in b;
    forall i, j | 0 <= i < j < |more| && more[i] > more[j]
      ensures more[j] in overtaken + Elems(b)
    {
      AheadIsOlder(a, b, overtaken, n, i, j);
    }
    forall j | 0 <= j < |more| && more[j] in overtaken + Elems(b)
      ensures Behind(more, j)
    {
      OlderIsBehind(a, b, overtaken, n, j);
    }
  }

  lemma ExplainedNext(held: seq<nat>, overtaken: set<nat>, n: nat)
    requires Explained(held, overtaken) && Under(held, n) && n !in overtaken && Once(held)
    ensures Explained(held + [n], overtaken)
  {
    assert held + [] == held && held + [n] + [] == held + [n];
    hide Explained, Once, Under;
    ExplainedAhead(held, [], overtaken, n);
    assert overtaken + Elems([]) == overtaken;
  }

  lemma ExplainedPrefix(a: seq<nat>, b: seq<nat>, overtaken: set<nat>)
    requires Explained(a + b, overtaken)
    ensures Explained(a, overtaken)
  {
    var held := a + b;
    forall i, j | 0 <= i < j < |a| && a[i] > a[j]
      ensures a[j] in overtaken
    {
      assert held[i] > held[j];
    }
    forall j | 0 <= j < |a| && a[j] in overtaken
      ensures Behind(a, j)
    {
      assert held[j] == a[j] && Behind(held, j);
      var i :| 0 <= i < j && held[i] > held[j];
      assert a[i] > a[j];
    }
  }

  lemma AllBelow(held: seq<nat>, dropped: set<nat>, next: nat)
    requires Accounted(held, dropped, next)
    ensures Under(held, next)
  {
  }

  lemma KeptNext(held: seq<nat>, s: State)
    requires Kept(held, s)
    ensures Kept(held + [s.next], s.(next := s.next + 1))
  {
    AllBelow(held, s.dropped, s.next);
    AccountedNext(held, s.dropped, s.next);
    ExplainedNext(held, s.overtaken, s.next);
    QueuedNext(held, s.direct, s.next);
    hide Accounted, Explained, Queued, Increasing;
  }

  lemma KeptAhead(a: seq<nat>, b: seq<nat>, s: State)
    requires Kept(a + b, s)
    ensures Kept(a + [s.next] + b,
              s.(next := s.next + 1, direct := s.direct + {s.next}, overtaken := s.overtaken + Elems(b)))
  {
    AllBelow(a + b, s.dropped, s.next);
    AccountedAhead(a, b, s.dropped, s.next);
    ExplainedAhead(a, b, s.overtaken, s.next);
    QueuedAhead(a, b, s.direct, s.next);
    hide Accounted, Explained, Queued, Increasing;
    forall id | id in Elems(b)
      ensures id < s.next
    {
      assert id in a + b;
    }
  }

  lemma KeptDropped(a: seq<nat>, b: seq<nat>, s: State)
    requires Kept(a + b, s)
    ensures Kept(a, s.(dropped := s.dropped + Elems(b)))
  {
    AccountedDropped(a, b, s.dropped, s.next);
    ExplainedPrefix(a, b, s.overtaken);
    QueuedOfBoth(a, b, s.direct);
    hide Accounted, Explained, Queued;
    IncreasingPrefix(Queued(a, s.direct), Queued(b, s.direct));
  }

  ghost predicate Inv(s: State)
  {
    Kept(Held(s), s) && (!s.busy ==> s.taken == [])
  }

  lemma NextKeeps(s: State, step: Step)
    requires Inv(s)
    ensures Inv(Next(s, step))
  {
    hide Accounted, Explained, Queued, Increasing, Elems;
    var t := Next(s, step);
    match step
    case Sent =>
      if s.busy {
        KeptNext(Held(s), s);
        assert Held(t) == Held(s) + [s.next];
      } else {
        assert Held(s) == s.recorded + s.pending;
        KeptAhead(s.recorded, s.pending, s);
        assert Held(t) == s.recorded + [s.next] + s.pending;
      }
    case Cancelled =>
      if s.busy {
        KeptDropped(s.recorded + s.taken, s.pending, s);
        assert Held(t) == s.recorded + s.taken;
      }
    case Drained => assert Held(t) == Held(s);
    case RowWritten => assert Held(t) == Held(s);
    case TurnEnded =>
    case FollowedUp => assert Held(t) == Held(s);
  }

  lemma {:induction false} AfterKeeps(steps: seq<Step>)
    ensures Inv(After(steps))
  {
    hide Next;
    if steps == [] {
      NothingYet();
    } else {
      AfterKeeps(steps[..|steps| - 1]);
      NextKeeps(After(steps[..|steps| - 1]), steps[|steps| - 1]);
      hide Inv;
    }
  }

  lemma NothingYet()
    ensures Inv(START)
  {
  }

  // ---- What the transcript shows ------------------------------------------------

  /** Over every run, queued messages stand in the transcript in the order they were
      accepted, those taken or still pending come after them in that order, and each
      accepted message is in exactly one place. */
  lemma QueuedInOrder(steps: seq<Step>)
    ensures var s := After(steps);
            && Increasing(Queued(s.recorded, s.direct)) && Increasing(Queued(Held(s), s.direct)) && Once(Held(s))
            && forall id: nat :: id < s.next <==> id in Held(s) || id in s.dropped
  {
    var s := After(steps);
    AfterKeeps(steps);
    assert Held(s) == s.recorded + (s.taken + s.pending);
    QueuedOfBoth(s.recorded, s.taken + s.pending, s.direct);
    hide After, Queued, Explained, Once;
    IncreasingPrefix(Queued(s.recorded, s.direct), Queued(s.taken + s.pending, s.direct));
  }

  /** All messages stand in the transcript in that order exactly when none of those
      recorded was overtaken. */
  lemma RecordedInOrderExactly(steps: seq<Step>)
    ensures var s := After(steps); Increasing(s.recorded) <==> forall id :: id in s.recorded ==> id !in s.overtaken
  {
    var s := After(steps);
    AfterKeeps(steps);
    assert Held(s) == s.recorded + (s.taken + s.pending);
    ExplainedPrefix(s.recorded, s.taken + s.pending, s.overtaken);
    InOrderExactly(s.recorded, s.overtaken, s.dropped, s.next, s.taken + s.pending);
    hide After, Kept, Queued, Explained, Increasing;
  }

  lemma InOrderExactly(a: seq<nat>, overtaken: set<nat>, dropped: set<nat>, next: nat, b: seq<nat>)
    requires Explained(a, overtaken) && Accounted(a + b, dropped, next)
    ensures Increasing(a) <==> forall id :: id in a ==> id !in overtaken
  {
    if Increasing(a) {
      forall id | id in a
        ensures id !in overtaken
      {
        var j :| 0 <= j < |a| && a[j] == id;
        assert Behind(a, j) ==> !Increasing(a);
      }
    } else {
      var i, j :| 0 <= i < j < |a| && a[i] >= a[j];
      assert (a + b)[i] != (a + b)[j];
      assert a[j] in overtaken;
    }
  }

  /** A message sent between two turns while others are still pending. */
  predicate Overtakes(steps: seq<Step>, i: nat)
    requires i < |steps|
  {
    steps[i] == Sent && !After(steps[..i]).busy && After(steps[..i]).pending != []
  }

  lemma {:induction false} OvertakenWhen(steps: seq<Step>)
    ensures After(steps).overtaken == {} <==> forall i :: 0 <= i < |steps| ==> !Overtakes(steps, i)
    ensures Cancelled !in steps ==> After(steps).dropped == {}
  {
    if steps != [] {
      var n := |steps| - 1;
      OvertakenWhen(steps[..n]);
      OvertakenNext(After(steps[..n]), steps[n]);
      assert After(steps) == Next(After(steps[..n]), steps[n]);
      hide After, Next;
      forall i | 0 <= i < n
        ensures Overtakes(steps, i) <==> Overtakes(steps[..n], i)
      {
        assert steps[..n][..i] == steps[..i];
      }
      assert After(steps[..n]).overtaken == {} <==> forall i :: 0 <= i < n ==> !Overtakes(steps, i);
      assert After(steps).overtaken == {} <==> After(steps[..n]).overtaken == {} && !Overtakes(steps, n);
    }
  }

  lemma OvertakenNext(s: State, step: Step)
    ensures Next(s, step).overtaken == {} <==> s.overtaken == {} && !(step == Sent && !s.busy && s.pending != [])
    ensures step != Cancelled ==> Next(s, step).dropped == s.dropped
  {
    if s.pending != [] { assert s.pending[0] in Elems(s.pending); }
  }

  /** With no message sent between turns ahead of pending ones, the transcript is in
      the order of acceptance. */
  lemma InOrderUnlessOvertaken(steps: seq<Step>)
    requires forall i :: 0 <= i < |steps| ==> !Overtakes(steps, i)
    ensures Increasing(After(steps).recorded)
  {
    OvertakenWhen(steps);
    RecordedInOrderExactly(steps);
    hide After, Increasing, Overtakes;
  }

  /** And exactly then, for a run without a cancel that has recorded all. */
  lemma InOrderExactlyUnlessOvertaken(steps: seq<Step>)
    requires Cancelled !in steps && After(steps).taken == After(steps).pending == []
    ensures Increasing(After(steps).recorded) <==> forall i :: 0 <= i < |steps| ==> !Overtakes(steps, i)
  {
    var s := After(steps);
    OvertakenWhen(steps);
    RecordedInOrderExactly(steps);
    AfterKeeps(steps);
    hide After, Increasing, Overtakes;
    OvertakenIsRecorded(s);
  }

  lemma OvertakenIsRecorded(s: State)
    requires Inv(s) && s.taken == s.pending == [] && s.dropped == {}
    ensures s.overtaken == {} <==> forall id :: id in s.recorded ==> id !in s.overtaken
  {
    assert Held(s) == s.recorded;
    hide Explained, Queued, Increasing;
    if s.overtaken != {} {
      var id :| id in s.overtaken;
      assert id < s.next;
      assert id in s.recorded;
    }
  }

  /** The second message waits, the turn ends, a third comes before the follow-up: it
      starts a turn ahead of the second. */
  lemma ThirdOvertakesSecond()
    ensures After([Sent, Sent, TurnEnded, Sent, Drained, RowWritten]).recorded == [0, 2, 1]
  {
    var all := [Sent, Sent, TurnEnded, Sent, Drained, RowWritten];
    assert all[..5][..4] == all[..4] && all[..4][..3] == all[..3] && all[..3][..2] == all[..2]
           && all[..2][..1] == all[..1];
    assert all[..1] == [Sent] && [Sent][..0] == [];
    var one := After(all[..1]);
    assert one == Next(START, Sent);
    var two := After(all[..2]);
    assert two == Next(one, Sent);
    var three := After(all[..3]);
    assert three == Next(two, TurnEnded);
    var four := After(all[..4]);
    assert four == Next(three, Sent);
    var five := After(all[..5]);
    assert five == Next(four, Drained);
    assert five.recorded == [0, 2] && five.taken == [1];
    assert After(all) == Next(five, RowWritten);
  }

  // ---- The session -----------------------------------------------------------------

  class Session {
    var busy: bool
    var pending: seq<nat>      // accepted while a turn runs
    var taken: seq<nat>        // taken by the loop and about to be recorded
    var recorded: seq<nat>     // user rows of the transcript
    var next: nat              // messages accepted so far

    /** These fields are those of `s`. */
    ghost predicate Is(s: State)
      reads this
    {
      busy == s.busy && pending == s.pending && taken == s.taken && recorded == s.recorded && next == s.next
    }

    constructor ()
      ensures Is(START)
    {
      busy, pending, taken, recorded, next := false, [], [], [], 0;
    }

    /** A text message: queued while a turn runs, else recorded and answered. */
    method Send(ghost s: State)
      requires Is(s)
      modifies this
      ensures Is(Next(s, Sent))
      ensures next == old(next) + 1 && taken == old(taken) && busy
      ensures if old(busy) then pending == old(pending) + [old(next)] && recorded == old(recorded)
              else pending == old(pending) && recorded == old(recorded) + [old(next)]
    {
      if busy {
        pending := pending + [next];
      } else {
        recorded, busy := recorded + [next], true;
      }
      next := next + 1;
    }

    /** Stop everything: messages not yet taken are dropped. */
    method Cancel(ghost s: State)
      requires Is(s)
      modifies this`pending
      ensures Is(Next(s, Cancelled)) && pending == if busy then [] else old(pending)
    {
      if busy {
        pending := [];
      }
    }

    /** The loop takes the whole queue, at a boundary between tool calls. */
    method Drain(ghost s: State)
      requires Is(s) && busy && taken == []
      modifies this`pending, this`taken
      ensures Is(Next(s, Drained)) && taken == old(pending) && pending == []
    {
      taken, pending := pending, [];
    }

    method RecordNext(ghost s: State)
      requires Is(s) && busy && taken != []
      modifies this`taken, this`recorded
      ensures Is(Next(s, RowWritten))
      ensures recorded == old(recorded) + [old(taken)[0]] && taken == old(taken)[1..]
    {
      recorded, taken := recorded + [taken[0]], taken[1..];
    }

    /** After the turn: the first leftover starts a turn of its own. */
    method FollowUp(ghost s: State)
      requires Is(s) && !busy && pending != []
      modifies this`pending, this`recorded, this`busy
      ensures Is(Next(s, FollowedUp)) && busy
      ensures recorded == old(recorded) + [old(pending)[0]] && pending == old(pending)[1..]
    {
      recorded, pending, busy := recorded + [pending[0]], pending[1..], true;
    }

    method Take(step: Step, ghost s: State)
      requires Is(s)
      modifies this
      ensures Is(Next(s, step))
    {
      match step {
        case Sent => Send(s);
        case Cancelled => Cancel(s);
        case Drained => if busy && taken == [] { Drain(s); }
        case RowWritten => if busy && taken != [] { RecordNext(s); }
        case TurnEnded => if taken == [] { busy := false; }
        case FollowedUp => if !busy && pending != [] { FollowUp(s); }
      }
    }
  }

  /** Any run: the queued messages are recorded in order, all messages are exactly
      when none of them was overtaken, and without a cancel none is lost. */
  method Run(steps: seq<Step>) returns (session: Session)
    ensures session.Is(After(steps))
    ensures Increasing(Queued(session.recorded, After(steps).direct))
    ensures Increasing(session.recorded) <==> forall id :: id in session.recorded ==> id !in After(steps).overtaken
    ensures (forall i :: 0 <= i < |steps| ==> !Overtakes(steps, i)) ==> Increasing(session.recorded)
    ensures Cancelled !in steps ==>
              forall id: nat :: id < session.next <==> id in session.recorded + session.taken + session.pending
  {
    hide Next, Increasing, Queued, Once, Overtakes;
    session := new Session();
    assert steps[..0] == [];
    for i := 0 to |steps|
      invariant fresh(session) && session.Is(After(steps[..i]))
    {
      session.Take(steps[i], After(steps[..i]));
      assert steps[..i + 1][..i] == steps[..i];
    }
    assert steps[..|steps|] == steps;
    hide After;
    QueuedInOrder(steps);
    RecordedInOrderExactly(steps);
    OvertakenWhen(steps);
  }
}
