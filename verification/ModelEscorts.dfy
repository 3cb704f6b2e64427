/** The onion of escorts around one model call: each escort may dial the next
    layer, and one that fails is passed through. */
module ModelEscorts {
  import opened Basics

  type Request = string
  type Response = string

  datatype Outcome = Got(response: Response) | Failed

  /** What an escort does next: dial, with its own request or the one it was
      given; return a response, or abstain; or raise. */
  datatype Act = Dial(request: Option<Request>) | Return(response: Option<Response>) | Raise

  /** An escort decides by the moment, its request and how its dials went. */
  datatype Escort = Escort(script: (nat, Request, seq<Outcome>) -> Act, dials: nat)

  ghost predicate Bounded(e: Escort)
  {
    forall m, r, h :: |h| >= e.dials ==> !e.script(m, r, h).Dial?
  }

  /** The response an escort obtained last. */
  function LastGot(dials: seq<Outcome>): Option<Response>
  {
    if dials == [] then None
    else if dials[|dials| - 1].Got? then Some(dials[|dials| - 1].response)
    else LastGot(dials[..|dials| - 1])
  }

  lemma LastGotNext(dials: seq<Outcome>, o: Outcome)
    ensures LastGot(dials + [o]) == if o.Got? then Some(o.response) else LastGot(dials)
  {
    assert (dials + [o])[..|dials|] == dials;
  }

  /** The most backend calls if no dial fails: each layer dials as often as its
      escort does, but once at least. */
  function IfAllSucceed(escorts: seq<Escort>): nat
  {
    if escorts == [] then 1
    else (if escorts[0].dials == 0 then 1 else escorts[0].dials) * IfAllSucceed(escorts[1..])
  }

  /** The most in any case: a layer may dial once more after its escort. */
  function AtWorst(escorts: seq<Escort>): nat
  {
    if escorts == [] then 1 else (escorts[0].dials + 1) * AtWorst(escorts[1..])
  }

  /** What has happened so far: backend calls, failed ones, and decisions taken. */
  datatype State = State(calls: nat, failures: nat, moment: nat)

  /** What a stack of escorts answers a request with, and the state after. */
  function Answer(escorts: seq<Escort>, backend: (nat, Request) -> Outcome, request: Request, st: State): (Outcome,
                  State)
    decreases |escorts|, 1, 0
  {
    if escorts == [] then
      var out := backend(st.calls, request);
      (out, st.(calls := st.calls + 1, failures := st.failures + if out.Failed? then 1 else 0))
    else Escorted(escorts, backend, request, [], st)
  }

  /** The outermost escort, some dials into its turn. */
  function Escorted(escorts: seq<Escort>, backend: (nat, Request) -> Outcome, request: Request, dials: seq<Outcome>,
                    st: State): (Outcome, State)
    requires escorts != []
    decreases |escorts|, 0, if |dials| < escorts[0].dials then escorts[0].dials - |dials| else 0
  {
    var act, next := escorts[0].script(st.moment, request, dials), st.(moment := st.moment + 1);
    if act.Dial? && |dials| < escorts[0].dials then
      var (got, after) := Answer(escorts[1..], backend, if act.request.Some? then act.request.value else request, next);
      Escorted(escorts, backend, request, dials + [got], after)
    else if act.Return? && act.response.Some? then (Got(act.response.value), next)
    else if LastGot(dials).Some? then (Got(LastGot(dials).value), next)
    else Answer(escorts[1..], backend, request, next)
  }

  lemma AnswerOfInnermost(backend: (nat, Request) -> Outcome, request: Request, st: State)
    ensures Answer([], backend, request, st)
         == (backend(st.calls, request),
             st.(calls := st.calls + 1, failures := st.failures + if backend(st.calls, request).Failed? then 1 else 0))
  {
  }

  lemma AnswerOfLayer(escorts: seq<Escort>, i: nat, backend: (nat, Request) -> Outcome, request: Request, st: State)
    requires i < |escorts|
    ensures Answer(escorts[i..], backend, request, st) == Escorted(escorts[i..], backend, request, [], st)
  {
  }

  lemma AfterDecision(escorts: seq<Escort>, i: nat, backend: (nat, Request) -> Outcome, request: Request,
                      dials: seq<Outcome>, st: State)
    requires i < |escorts|
    ensures var act, next := escorts[i].script(st.moment, request, dials), st.(moment := st.moment + 1);
            Escorted(escorts[i..], backend, request, dials, st) ==
              if act.Dial? && |dials| < escorts[i].dials then
                var (got, after) := Answer(escorts[i + 1..], backend, if act.request.Some? then act.request.value
                  else request, next);
                Escorted(escorts[i..], backend, request, dials + [got], after)
              else if act.Return? && act.response.Some? then (Got(act.response.value), next)
              else if LastGot(dials).Some? then (Got(LastGot(dials).value), next)
              else Answer(escorts[i + 1..], backend, request, next)
  {
    assert escorts[i..][0] == escorts[i] && escorts[i..][1..] == escorts[i + 1..];
    hide LastGot;
  }

  function Copies(n: nat, w: nat): nat
  {
    n * w
  }

  lemma CopiesGrow(n: nat, w: nat)
    ensures Copies(0, w) == 0 && Copies(1, w) == w && Copies(n + 1, w) == Copies(n, w) + w
  {
  }

  lemma CopiesOrdered(n: nat, m: nat, w: nat)
    requires n <= m
    ensures Copies(n, w) <= Copies(m, w)
  {
  }

  lemma BoundsOfLayer(escorts: seq<Escort>, i: nat)
    requires i < |escorts|
    ensures IfAllSucceed(escorts[i..])
         == Copies(if escorts[i].dials == 0 then 1 else escorts[i].dials, IfAllSucceed(escorts[i + 1..]))
    ensures AtWorst(escorts[i..]) == Copies(escorts[i].dials + 1, AtWorst(escorts[i + 1..]))
  {
    assert escorts[i..][1..] == escorts[i + 1..];
  }

  lemma InnermostBounds(escorts: seq<Escort>)
    ensures IfAllSucceed(escorts[|escorts|..]) == 1 && AtWorst(escorts[|escorts|..]) == 1
  {
  }

  /** How the outermost escort's turn ended: the outcomes of its dials, its last act,
      and the state by then. */
  datatype Ending = Ending(dials: seq<Outcome>, act: Act, at: State)

  function EndingOf(escorts: seq<Escort>, backend: (nat, Request) -> Outcome, request: Request, dials: seq<Outcome>,
                    st: State): Ending
    requires escorts != []
    decreases if |dials| < escorts[0].dials then escorts[0].dials - |dials| else 0
  {
    var act, next := escorts[0].script(st.moment, request, dials), st.(moment := st.moment + 1);
    if act.Dial? && |dials| < escorts[0].dials then
      var (got, after) := Answer(escorts[1..], backend, if act.request.Some? then act.request.value else request, next);
      EndingOf(escorts, backend, request, dials + [got], after)
    else Ending(dials, act, next)
  }

  /** An escort's own response is final; if it abstains or raises after a dial that
      succeeded, the last response it got is, and the inner layers are not asked again;
      only without either are they, once, with the request as it came. */
  lemma {:induction false} NoRedial(escorts: seq<Escort>, backend: (nat, Request) -> Outcome, request: Request,
                                    dials: seq<Outcome>, st: State)
    requires escorts != [] && Bounded(escorts[0]) && |dials| <= escorts[0].dials
    ensures var e := EndingOf(escorts, backend, request, dials, st);
            && !e.act.Dial? && dials <= e.dials && |e.dials| <= escorts[0].dials
            && Escorted(escorts, backend, request, dials, st) ==
               if e.act.Return? && e.act.response.Some? then (Got(e.act.response.value), e.at)
               else if LastGot(e.dials).Some? then (Got(LastGot(e.dials).value), e.at)
               else Answer(escorts[1..], backend, request, e.at)
    decreases escorts[0].dials - |dials|
  {
    hide LastGot, Answer;
    var act, next := escorts[0].script(st.moment, request, dials), st.(moment := st.moment + 1);
    if act.Dial? {
      var (got, after) := Answer(escorts[1..], backend, if act.request.Some? then act.request.value else request, next);
      NoRedial(escorts, backend, request, dials + [got], after);
    }
  }

  class ModelCall {
    const escorts: seq<Escort>    // the first is the outermost
    const backend: (nat, Request) -> Outcome
    var calls: nat
    var failures: nat
    var moment: nat

    function Now(): State
      reads this
    {
      State(calls, failures, moment)
    }

    constructor (escorts: seq<Escort>, backend: (nat, Request) -> Outcome)
      ensures this.escorts == escorts && this.backend == backend && Now() == State(0, 0, 0)
    {
      this.escorts, this.backend := escorts, backend;
      calls, failures, moment := 0, 0, 0;
    }

    method Layer(i: nat, request: Request) returns (out: Outcome)
      requires i <= |escorts| && forall k :: 0 <= k < |escorts| ==> Bounded(escorts[k])
      modifies this
      ensures (out, Now()) == Answer(escorts[i..], backend, request, old(Now()))
      ensures old(calls) <= calls <= old(calls) + AtWorst(escorts[i..]) && old(failures) <= failures
      ensures failures == old(failures) ==> out.Got? && calls <= old(calls) + IfAllSucceed(escorts[i..])
      decreases |escorts| - i
    {
      hide IfAllSucceed, AtWorst, Copies, LastGot, Bounded, Answer, Escorted;
      if i == |escorts| {
        InnermostBounds(escorts);
        assert escorts[i..] == [];
        AnswerOfInnermost(backend, request, Now());
        out := backend(calls, request);
        calls := calls + 1;
        if out.Failed? {
          failures := failures + 1;
        }
        return;
      }
      var escort := escorts[i];
      ghost var clean, worst := IfAllSucceed(escorts[i + 1..]), AtWorst(escorts[i + 1..]);
      BoundsOfLayer(escorts, i);
      CopiesGrow(0, clean);
      CopiesGrow(0, worst);
      var dials: seq<Outcome>, last: Option<Response> := [], None;
      AnswerOfLayer(escorts, i, backend, request, Now());
      AfterDecision(escorts, i, backend, request, dials, Now());
      StopsDialing(escort, moment, request, dials);
      NoDials();
      ghost var st := Now();
      var act := escort.script(moment, request, dials);
      moment := moment + 1;
      while act.Dial?
        invariant |dials| <= escort.dials && (act.Dial? ==> |dials| < escort.dials)
        invariant old(calls) <= calls <= old(calls) + Copies(|dials|, worst) && old(failures) <= failures
        invariant failures == old(failures) ==>
                  calls <= old(calls) + Copies(|dials|, clean) && (dials != [] ==> last.Some?)
        invariant last == LastGot(dials)
        invariant Now() == st.(moment := st.moment + 1) && act == escort.script(st.moment, request, dials)
        invariant Escorted(escorts[i..], backend, request, dials, st)
                  == Answer(escorts[i..], backend, request, old(Now()))
        decreases escort.dials - |dials|
      {
        AfterDecision(escorts, i, backend, request, dials, st);
        var got := Layer(i + 1, if act.request.Some? then act.request.value else request);
        CopiesGrow(|dials|, worst);
        CopiesGrow(|dials|, clean);
        LastGotNext(dials, got);
        dials := dials + [got];
        if got.Got? {
          last := Some(got.response);
        }
        StopsDialing(escort, moment, request, dials);
        AfterDecision(escorts, i, backend, request, dials, Now());
        st := Now();
        act := escort.script(moment, request, dials);
        moment := moment + 1;
      }
      AfterDecision(escorts, i, backend, request, dials, st);
      CopiesOrdered(|dials|, escort.dials, worst);
      CopiesOrdered(|dials|, escort.dials, clean);
      CopiesGrow(escort.dials, worst);
      if act.Return? && act.response.Some? {
        out := Got(act.response.value);
      } else if last.Some? {
        out := Got(last.value);
      } else {
        out := Layer(i + 1, request);
        CopiesOrdered(1, if escort.dials == 0 then 1 else escort.dials, clean);
      }
      CopiesOrdered(escort.dials, if escort.dials == 0 then 1 else escort.dials, clean);
    }
  }

  lemma NoDials()
    ensures LastGot([]) == None
  {
  }

  lemma StopsDialing(e: Escort, moment: nat, request: Request, dials: seq<Outcome>)
    requires Bounded(e) && |dials| <= e.dials
    ensures e.script(moment, request, dials).Dial? ==> |dials| < e.dials
  {
  }

  /** The first bound needs that no dial fails: an escort that dials once and
      lets the failure pass makes the layer dial a second time. */
  lemma FailedDialIsRepeated(request: Request, response: Response)
    ensures var escort := Escort((m: nat, r: Request, h: seq<Outcome>) => if h == [] then Dial(None) else Raise, 1);
            var backend := (n: nat, r: Request) => if n == 0 then Failed else Got(response);
            Bounded(escort) && Answer([escort], backend, request, State(0, 0, 0)) == (Got(response), State(2, 1, 2))
            && IfAllSucceed([escort]) == 1
  {
    var escort := Escort((m: nat, r: Request, h: seq<Outcome>) => if h == [] then Dial(None) else Raise, 1);
    var backend := (n: nat, r: Request) => if n == 0 then Failed else Got(response);
    assert [escort][0..] == [escort] && [escort][1..] == [];
    AfterDecision([escort], 0, backend, request, [], State(0, 0, 0));
    AfterDecision([escort], 0, backend, request, [Failed], State(1, 1, 1));
  }

  /** One whole model call. */
  method Place(escorts: seq<Escort>, backend: (nat, Request) -> Outcome, request: Request)
    returns (out: Outcome, calls: nat, failures: nat)
    requires forall k :: 0 <= k < |escorts| ==> Bounded(escorts[k])
    ensures var (o, st) := Answer(escorts, backend, request, State(0, 0, 0));
            out == o && calls == st.calls && failures == st.failures
    ensures calls <= AtWorst(escorts)
    ensures failures == 0 ==> out.Got? && calls <= IfAllSucceed(escorts)
  {
    var call := new ModelCall(escorts, backend);
    assert escorts[0..] == escorts;
    out := call.Layer(0, request);
    calls, failures := call.calls, call.failures;
  }
}
