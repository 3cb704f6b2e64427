/** The circuit breaker for plugins: strikes in a sliding window of time. */
module PluginHealth {

  const STRIKE_THRESHOLD := 3
  const STRIKE_WINDOW := 60.0

  datatype Event = Success(key: string) | Strike(key: string, eligible: bool, at: real) | Clear(key: string)

  // ---- What the breaker should know, told by the whole history ---------------

  /** Strikes within the window before the latest one. */
  function Recent(times: seq<real>): seq<real>
  {
    if times == [] then [] else Within(times, times[|times| - 1])
  }

  function Within(times: seq<real>, now: real): seq<real>
  {
    if times == [] then []
    else Within(times[..|times| - 1], now) + if now - times[|times| - 1] <= STRIKE_WINDOW then [times[|times| - 1]]
         else []
  }

  /** A plugin's record: every strike since it last ran cleanly, was cleared or
      was condemned, however old; and whether it is condemned. */
  datatype Record = Record(times: seq<real>, condemned: bool)

  function Seen(log: seq<Event>, key: string): Record
  {
    if log == [] then Record([], false) else Noted(Seen(log[..|log| - 1], key), key, log[|log| - 1])
  }

  /** What one event does to a plugin's record. */
  function Noted(r: Record, key: string, e: Event): Record
  {
    match e
    case Success(k) => if k == key then Record([], r.condemned) else r
    case Clear(k) => if k == key then Record([], false) else r
    case Strike(k, eligible, at) =>
      if k != key || r.condemned then r
      else if Condemns(r, eligible, at) then Record([], true)
      else Record(r.times + [at], false)
  }

  /** An eligible strike that is at least the third in the window. */
  predicate Condemns(r: Record, eligible: bool, at: real)
  {
    !r.condemned && eligible && |Recent(r.times + [at])| >= STRIKE_THRESHOLD
  }

  /** Event `i` of the log is the strike that condemns the plugin. */
  predicate Trips(log: seq<Event>, key: string, i: nat)
    requires i < |log|
  {
    log[i].Strike? && log[i].key == key && Condemns(Seen(log[..i], key), log[i].eligible, log[i].at)
  }

  lemma {:induction false} CondemnedUntilCleared(log: seq<Event>, key: string, i: nat, j: nat)
    requires i < j <= |log| && Trips(log, key, i)
    requires forall m :: i < m < j ==> log[m] != Clear(key)
    ensures Seen(log[..j], key).condemned
  {
    var n := j - 1;
    assert log[..j][..n] == log[..n] && log[..j][n] == log[n];
    if n > i {
      CondemnedUntilCleared(log, key, i, n);
    }
  }

  /** At most one quarantine is requested between two clears of a plugin. */
  lemma OneRequestBetweenClears(log: seq<Event>, key: string, i: nat, j: nat)
    requires i < j < |log| && Trips(log, key, i) && Trips(log, key, j)
    ensures exists m :: i < m < j && log[m] == Clear(key)
  {
    hide Seen;
    if forall m :: i < m < j ==> log[m] != Clear(key) {
      CondemnedUntilCleared(log, key, i, j);
      assert false;
    }
  }

  // ---- The window --------------------------------------------------------------

  ghost predicate Ascending(times: seq<real>)
  {
    forall i, j :: 0 <= i < j < |times| ==> times[i] <= times[j]
  }

  lemma AscendingNext(times: seq<real>, now: real)
    requires Ascending(times) && forall t :: t in times ==> t <= now
    ensures Ascending(times + [now])
  {
    var more := times + [now];
    forall i, j | 0 <= i < j < |more|
      ensures more[i] <= more[j]
    {
      assert more[i] == times[i];
      if j < |times| { assert more[j] == times[j]; } else { assert times[i] in times; }
    }
  }

  lemma AscendingInit(init: seq<real>, last: real)
    requires Ascending(init + [last])
    ensures Ascending(init) && forall t :: t in init ==> t <= last
  {
    var more := init + [last];
    forall i, j | 0 <= i < j < |init|
      ensures init[i] <= init[j]
    {
      assert more[i] <= more[j];
    }
    forall t | t in init
      ensures t <= last
    {
      var i :| 0 <= i < |init| && init[i] == t;
      assert more[i] <= more[|init|];
    }
  }

  /** What is too old at one moment stays so; so the window of an older moment
      is enough to work out the window now. */
  lemma {:induction false} WithinAgain(times: seq<real>, then': real, now: real)
    requires then' <= now
    ensures Within(Within(times, then'), now) == Within(times, now)
  {
    if times != [] {
      var n := |times| - 1;
      WithinAgain(times[..n], then', now);
      if then' - times[n] <= STRIKE_WINDOW {
        assert (Within(times[..n], then') + [times[n]])[..|Within(times[..n], then')|] == Within(times[..n], then');
      } else {
        assert Within(times, then') == Within(times[..n], then');
      }
    }
  }

  /** Among ascending times the window is what follows the last one too old. */
  lemma {:induction false} WindowIsSuffix(times: seq<real>, now: real, k: nat)
    requires k <= |times| && Ascending(times)
    requires forall i :: 0 <= i < k ==> now - times[i] > STRIKE_WINDOW
    requires k < |times| ==> now - times[k] <= STRIKE_WINDOW
    ensures Within(times, now) == times[k..]
  {
    if times != [] {
      var n := |times| - 1;
      assert times == times[..n] + [times[n]];
      AscendingInit(times[..n], times[n]);
      if k <= n {
        assert times[..n][k..] + [times[n]] == times[k..];
        WindowIsSuffix(times[..n], now, k);
      } else {
        WindowIsSuffix(times[..n], now, n);
      }
    }
  }

  lemma {:induction false} WindowIsAscending(times: seq<real>, now: real)
    requires Ascending(times)
    ensures Ascending(Within(times, now))
    ensures forall t :: t in Within(times, now) ==> t in times
  {
    if times != [] {
      var n := |times| - 1;
      assert times == times[..n] + [times[n]];
      AscendingInit(times[..n], times[n]);
      WindowIsAscending(times[..n], now);
      AscendingNext(Within(times[..n], now), times[n]);
      hide Ascending;
    }
  }

  lemma RecentNext(times: seq<real>, deque: seq<real>, now: real)
    requires Timely(times, now) && deque == Recent(times)
    ensures Recent(times + [now]) == Within(deque + [now], now) && Ascending(deque + [now])
  {
    assert (times + [now])[..|times|] == times && (deque + [now])[..|deque|] == deque;
    if times != [] {
      var last := times[|times| - 1];
      assert last in times;
      WithinAgain(times, last, now);
      WindowIsAscending(times, last);
    }
    AscendingNext(deque, now);
  }

  /** Strikes in the order of time, none later than `now`. */
  ghost predicate Timely(times: seq<real>, now: real)
  {
    Ascending(times) && forall t :: t in times ==> t <= now
  }

  lemma TimelyNext(times: seq<real>, latest: real, now: real)
    requires Timely(times, latest) && latest <= now
    ensures Timely(times + [now], now) && Timely(times, now)
  {
    AscendingNext(times, now);
    hide Ascending;
  }

  // ---- At which strike it trips -------------------------------------------------

  /** Strikes are logged in the order of time. */
  ghost predicate Chronological(log: seq<Event>)
  {
    forall i, j :: 0 <= i < j < |log| && log[i].Strike? && log[j].Strike? ==> log[i].at <= log[j].at
  }

  lemma {:induction false} RecordIsTimely(log: seq<Event>, key: string, i: nat)
    requires Chronological(log) && i < |log| && log[i].Strike?
    ensures Timely(Seen(log[..i], key).times, log[i].at)
    ensures forall t :: t in Seen(log[..i], key).times ==> exists j :: 0 <= j < i && log[j].Strike? && log[j].at == t
  {
    TimelyUpTo(log, key, i, log[i].at);
  }

  lemma {:induction false} TimelyUpTo(log: seq<Event>, key: string, i: nat, now: real)
    requires Chronological(log) && i <= |log|
    requires forall j :: 0 <= j < i && log[j].Strike? ==> log[j].at <= now
    ensures Timely(Seen(log[..i], key).times, now)
    ensures forall t :: t in Seen(log[..i], key).times ==> exists j :: 0 <= j < i && log[j].Strike? && log[j].at == t
  {
    if i > 0 {
      assert log[..i][..i - 1] == log[..i - 1];
      var e, r := log[i - 1], Seen(log[..i - 1], key);
      assert Seen(log[..i], key) == Noted(r, key, e);
      hide Seen, Condemns, Timely, Recent;
      if e.Strike? {
        TimelyUpTo(log, key, i - 1, e.at);
        TimelyNext(r.times, e.at, e.at);
        TimelyLater(r.times + [e.at], e.at, now);
        TimelyLater(r.times, e.at, now);
      } else {
        TimelyUpTo(log, key, i - 1, now);
      }
      NoStrikes();
    }
  }

  lemma TimelyLater(times: seq<real>, latest: real, now: real)
    requires Timely(times, latest) && latest <= now
    ensures Timely(times, now)
  {
  }

  /** How many strikes the window holds, told by the age of one of them. */
  lemma {:induction false} WindowHolds(times: seq<real>, now: real, n: nat)
    requires Ascending(times) && n > 0
    ensures |Within(times, now)| >= n <==> |times| >= n && now - times[|times| - n] <= STRIKE_WINDOW
  {
    if times != [] {
      var init, last := times[..|times| - 1], times[|times| - 1];
      assert times == init + [last];
      AscendingInit(init, last);
      assert forall i :: 0 <= i < |times| ==> times[i] <= last;
      if now - last > STRIKE_WINDOW {
        WindowIsSuffix(times, now, |times|);
      } else if n > 1 {
        WindowHolds(init, now, n - 1);
      }
    }
  }

  /** The strikes in the window when a strike comes, itself among them. */
  function Count(log: seq<Event>, key: string, i: nat): nat
    requires i < |log| && log[i].Strike?
  {
    |Recent(Seen(log[..i], key).times + [log[i].at])|
  }

  /** A strike trips the breaker at more than three exactly when, of the strikes
      since the record began, the third before it is still in the window. */
  lemma MoreThanThreeExactly(log: seq<Event>, key: string, i: nat)
    requires Chronological(log) && i < |log| && Trips(log, key, i)
    ensures var times := Seen(log[..i], key).times;
            Count(log, key, i) > STRIKE_THRESHOLD <==>
              |times| >= STRIKE_THRESHOLD && log[i].at - times[|times| - STRIKE_THRESHOLD] <= STRIKE_WINDOW
  {
    var times, at := Seen(log[..i], key).times, log[i].at;
    RecordIsTimely(log, key, i);
    AscendingNext(times, at);
    WindowHolds(times + [at], at, STRIKE_THRESHOLD + 1);
    hide Seen, Within, Ascending;
  }

  /** No strike of the plugin differs from `eligible`, which depends on where its
      source lies. */
  ghost predicate Uniform(log: seq<Event>, key: string, eligible: bool)
  {
    forall i :: 0 <= i < |log| && log[i].Strike? && log[i].key == key ==> log[i].eligible == eligible
  }

  /** If each strike of a plugin counts, whatever other plugins do, there are never
      more than two before the one that trips it. */
  lemma {:induction false} TwoAtMost(log: seq<Event>, key: string)
    requires Uniform(log, key, true)
    ensures |Recent(Seen(log, key).times)| < STRIKE_THRESHOLD
  {
    if log != [] {
      TwoAtMost(log[..|log| - 1], key);
    }
  }

  lemma {:induction false} NoneCondemned(log: seq<Event>, key: string)
    requires Uniform(log, key, false)
    ensures !Seen(log, key).condemned
  {
    if log != [] {
      NoneCondemned(log[..|log| - 1], key);
    }
  }

  /** A plugin whose strikes count trips exactly at the third in the window; one
      whose strikes do not, never. */
  lemma TripsAtThirdExactly(log: seq<Event>, key: string, eligible: bool, i: nat)
    requires Chronological(log) && Uniform(log, key, eligible) && i < |log| && log[i].Strike? && log[i].key == key
    ensures Trips(log, key, i) <==>
              eligible && !Seen(log[..i], key).condemned && Count(log, key, i) == STRIKE_THRESHOLD
  {
    var times, at := Seen(log[..i], key).times, log[i].at;
    if eligible {
      TwoAtMost(log[..i], key);
      RecordIsTimely(log, key, i);
      RecentGrowsByOne(times, at);
      hide Seen, Recent;
    }
  }

  lemma RecentGrowsByOne(times: seq<real>, at: real)
    requires Timely(times, at)
    ensures |Recent(times + [at])| <= |Recent(times)| + 1
  {
    RecentNext(times, Recent(times), at);
    var dq := Recent(times) + [at];
    assert dq[..|dq| - 1] == Recent(times);
    WindowIsShorter(dq, at);
    hide Recent;
  }

  lemma {:induction false} WindowIsShorter(times: seq<real>, now: real)
    ensures |Within(times, now)| <= |times|
  {
    if times != [] { WindowIsShorter(times[..|times| - 1], now); }
  }

  /** The class alone, called with both kinds of strike for one plugin: three that
      do not count, then one that does, and it trips at four. */
  lemma MixedStrikesTripAtFour(key: string)
    ensures var log := [Strike(key, false, 0.0), Strike(key, false, 1.0), Strike(key, false, 2.0),
              Strike(key, true, 3.0)];
            Trips(log, key, 3) && Count(log, key, 3) == 4
  {
    var none: seq<Event> := [];
    var one, two := [Strike(key, false, 0.0)], [Strike(key, false, 0.0), Strike(key, false, 1.0)];
    var three := [Strike(key, false, 0.0), Strike(key, false, 1.0), Strike(key, false, 2.0)];
    assert none + [Strike(key, false, 0.0)] == one && one + [Strike(key, false, 1.0)] == two;
    assert two + [Strike(key, false, 2.0)] == three;
    Unheeded(none, key, 0.0);
    hide Seen, Recent;
    Unheeded(one, key, 1.0);
    Unheeded(two, key, 2.0);
    var all := [Strike(key, false, 0.0), Strike(key, false, 1.0), Strike(key, false, 2.0), Strike(key, true, 3.0)];
    assert all[..3] == three;
    assert Seen(three, key).times == [0.0] + [1.0] + [2.0] == [0.0, 1.0, 2.0];
    FourInWindow();
  }

  /** A strike that does not count is only noted. */
  lemma Unheeded(log: seq<Event>, key: string, at: real)
    requires !Seen(log, key).condemned
    ensures Seen(log + [Strike(key, false, at)], key) == Record(Seen(log, key).times + [at], false)
    ensures log == [] ==> Seen(log, key).times == []
  {
    Logged(log, Strike(key, false, at));
    hide Recent;
  }

  lemma FourInWindow()
    ensures |Recent([0.0, 1.0, 2.0] + [3.0])| == 4
  {
    var times := [0.0, 1.0, 2.0] + [3.0];
    assert Ascending(times);
    WindowIsSuffix(times, 3.0, 0);
    hide Within;
    assert times[|times| - 1] == 3.0;
  }

  function DequeOf(strikes: map<string, seq<real>>, key: string): seq<real>
  {
    if key in strikes then strikes[key] else []
  }

  /** The deques are the recent strikes of each record, and the condemned are
      those the records condemn. */
  ghost predicate Tracks(strikes: map<string, seq<real>>, quarantined: set<string>, log: seq<Event>)
  {
    forall key :: Matches(Seen(log, key), DequeOf(strikes, key), key in quarantined)
  }

  ghost predicate Matches(r: Record, deque: seq<real>, condemned: bool)
  {
    deque == Recent(r.times) && condemned == r.condemned
  }

  class Health {
    var strikes: map<string, seq<real>>
    var quarantined: set<string>
    var requests: seq<string>         // quarantine requests on the event bus
    ghost var log: seq<Event>

    ghost predicate Valid()
      reads this
    {
      Chronological(log) && Tracks(strikes, quarantined, log)
    }

    constructor ()
      ensures Valid() && log == [] && requests == []
    {
      strikes, quarantined, requests := map[], {}, [];
      log := [];
      NoStrikes();
    }

    method RecordSuccess(key: string)
      requires Valid()
      modifies this`strikes, this`log
      ensures Valid() && log == if key == "" then old(log) else old(log) + [Success(key)]
    {
      hide Tracks;
      if key == "" {
        return;
      }
      Forgotten(strikes, quarantined, log, key);
      strikes := strikes - {key};
      log := log + [Success(key)];
    }

    method ClearHistory(key: string)
      requires Valid()
      modifies this`strikes, this`quarantined, this`log
      ensures Valid() && log == if key == "" then old(log) else old(log) + [Clear(key)]
    {
      hide Tracks;
      if key == "" {
        return;
      }
      Forgotten(strikes, quarantined, log, key);
      strikes, quarantined := strikes - {key}, quarantined - {key};
      log := log + [Clear(key)];
    }

    /** A crash or a timeout. The clock does not run backwards. */
    method RecordStrike(key: string, eligible: bool, enabled: bool, now: real)
      requires Valid() && (enabled && key != "" ==> Chronological(log + [Strike(key, eligible, now)]))
      modifies this
      ensures Valid()
      ensures log == if enabled && key != "" then old(log) + [Strike(key, eligible, now)] else old(log)
      ensures requests == old(requests) + if enabled && key != "" && Trips(log, key, |log| - 1) then [key] else []
    {
      hide Tracks, Seen, Recent, Within, Trips, Condemns, Timely;
      if !enabled || key == "" {
        return;
      }
      ghost var e, r := Strike(key, eligible, now), Seen(log, key);
      StrikeSeen(strikes, quarantined, log, e);
      TripsLast(log, e);
      log := log + [e];
      if key in quarantined {
        return;
      }
      var dq := NewWindow(r, if key in strikes then strikes[key] else [], now);
      ghost var before := strikes;
      strikes := strikes[key := dq];
      if eligible && |dq| >= STRIKE_THRESHOLD {
        quarantined := quarantined + {key};
        assert strikes - {key} == before - {key};
        strikes := strikes - {key};
        requests := requests + [key];
      }
    }
  }

  method NewWindow(ghost r: Record, deque: seq<real>, now: real) returns (dq: seq<real>)
    requires Timely(r.times, now) && deque == Recent(r.times)
    ensures dq == Recent(r.times + [now])
  {
    RecentNext(r.times, deque, now);
    dq := Trimmed(deque + [now], now);
  }

  lemma Forgotten(strikes: map<string, seq<real>>, quarantined: set<string>, log: seq<Event>, key: string)
    requires Chronological(log) && Tracks(strikes, quarantined, log)
    ensures Chronological(log + [Success(key)]) && Tracks(strikes - {key}, quarantined, log + [Success(key)])
    ensures Chronological(log + [Clear(key)]) && Tracks(strikes - {key}, quarantined - {key}, log + [Clear(key)])
  {
    Logged(log, Success(key));
    Logged(log, Clear(key));
    NoStrikes();
    hide Seen, Recent, Timely;
    forall k
      ensures Matches(Seen(log + [Success(key)], k), DequeOf(strikes - {key}, k), k in quarantined)
      ensures Matches(Seen(log + [Clear(key)], k), DequeOf(strikes - {key}, k), k in quarantined - {key})
    {
      assert Matches(Seen(log, k), DequeOf(strikes, k), k in quarantined);
    }
  }

  lemma TripsLast(log: seq<Event>, e: Event)
    requires e.Strike?
    ensures Trips(log + [e], e.key, |log|) <==> Condemns(Seen(log, e.key), e.eligible, e.at)
    ensures Condemns(Seen(log, e.key), e.eligible, e.at)
       <==> !Seen(log, e.key).condemned && e.eligible && |Recent(Seen(log, e.key).times + [e.at])| >= STRIKE_THRESHOLD
  {
    assert (log + [e])[..|log|] == log;
    hide Seen, Recent;
  }

  /** After a strike the other plugins are as they were; the struck one is right
      if its deque is the new window, or it is condemned. */
  lemma TimelyBefore(log: seq<Event>, e: Event, key: string)
    requires e.Strike? && Chronological(log + [e])
    ensures Timely(Seen(log, key).times, e.at)
  {
    var all := log + [e];
    assert all[..|log|] == log && all[|log|] == e;
    TimelyUpTo(all, key, |log|, e.at);
  }

  lemma StrikeSeen(strikes: map<string, seq<real>>, quarantined: set<string>, log: seq<Event>, e: Event)
    requires e.Strike? && Chronological(log + [e]) && Tracks(strikes, quarantined, log)
    ensures var r := Seen(log, e.key);
            && Timely(r.times, e.at) && r.condemned == (e.key in quarantined)
            && DequeOf(strikes, e.key) == Recent(r.times)
            && (r.condemned ==> Tracks(strikes, quarantined, log + [e]))
            && (!r.condemned && !Condemns(r, e.eligible, e.at) ==>
                  Tracks(strikes[e.key := Recent(r.times + [e.at])], quarantined, log + [e]))
            && (Condemns(r, e.eligible, e.at) ==>
                  Tracks(strikes - {e.key}, quarantined + {e.key}, log + [e]))
  {
    Logged(log, e);
    NoStrikes();
    hide Seen, Recent, Timely, Condemns;
    var r := Seen(log, e.key);
    forall k
      ensures Matches(Seen(log, k), DequeOf(strikes, k), k in quarantined)
      ensures Timely(Seen(log, k).times + [e.at], e.at)
    {
      assert Matches(Seen(log, k), DequeOf(strikes, k), k in quarantined);
      TimelyBefore(log, e, k);
      TimelyNext(Seen(log, k).times, e.at, e.at);
    }
    TimelyBefore(log, e, e.key);
    OwnRecord(r, e);
    forall k | k != e.key
      ensures Seen(log + [e], k) == Seen(log, k)
    {
      OthersUnharmed(Seen(log, k), k, e);
    }
    hide Noted;
    assert Matches(r, DequeOf(strikes, e.key), e.key in quarantined);
  }

  lemma OthersUnharmed(r: Record, k: string, e: Event)
    requires e.Strike? && k != e.key
    ensures Noted(r, k, e) == r
  {
  }

  lemma OwnRecord(r: Record, e: Event)
    requires e.Strike?
    ensures Noted(r, e.key, e) == if r.condemned then r else if Condemns(r, e.eligible, e.at) then Record([], true)
                                  else Record(r.times + [e.at], false)
    ensures Condemns(r, e.eligible, e.at) ==> !r.condemned
  {
  }

  lemma NoStrikes()
    ensures Recent([]) == [] && forall now :: Timely([], now)
  {
  }

  /** Drop from the left what is older than the window. */
  method Trimmed(deque: seq<real>, now: real) returns (r: seq<real>)
    requires Ascending(deque)
    ensures r == Within(deque, now)
  {
    var k := 0;
    while k < |deque| && now - deque[k] > STRIKE_WINDOW
      invariant 0 <= k <= |deque|
      invariant forall i :: 0 <= i < k ==> now - deque[i] > STRIKE_WINDOW
    {
      k := k + 1;
    }
    WindowIsSuffix(deque, now, k);
    r := deque[k..];
  }

  lemma Logged(log: seq<Event>, e: Event)
    ensures forall key :: Seen(log + [e], key) == Noted(Seen(log, key), key, e)
  {
    assert (log + [e])[..|log|] == log;
  }

  // ---- Runs -------------------------------------------------------------------------

  /** An event, and whether the breaker was enabled when it came. */
  datatype Report = Report(event: Event, enabled: bool)

  /** Those the breaker takes note of: it needs a key, and strikes need it enabled. */
  function Heeded(reports: seq<Report>): seq<Event>
  {
    if reports == [] then [] else Heeded(reports[..|reports| - 1]) + NotedOf(reports[|reports| - 1])
  }

  function NotedOf(r: Report): seq<Event>
  {
    if r.event.key != "" && (r.event.Strike? ==> r.enabled) then [r.event] else []
  }

  /** The plugins condemned in the course of a log, in order. */
  function Condemned(log: seq<Event>): seq<string>
  {
    if log == [] then []
    else
      var n := |log| - 1;
      Condemned(log[..n]) + if Trips(log, log[n].key, n) then [log[n].key] else []
  }

  lemma CondemnedNext(log: seq<Event>, e: Event)
    ensures Condemned(log + [e]) == Condemned(log) + if Trips(log + [e], e.key, |log|) then [e.key] else []
    ensures !e.Strike? ==> Condemned(log + [e]) == Condemned(log)
  {
    assert (log + [e])[..|log|] == log;
    if e.Strike? { hide Trips; }
  }

  lemma {:induction false} HeededPrefix(reports: seq<Report>, i: nat)
    requires i <= |reports|
    ensures Heeded(reports[..i]) <= Heeded(reports)
  {
    if i < |reports| {
      HeededPrefix(reports[..|reports| - 1], i);
      assert reports[..|reports| - 1][..i] == reports[..i];
    } else {
      assert reports[..i] == reports;
    }
  }

  lemma ChronologicalPrefix(log: seq<Event>, all: seq<Event>)
    requires log <= all && Chronological(all)
    ensures Chronological(log)
  {
    assert forall i :: 0 <= i < |log| ==> log[i] == all[i];
  }

  method Take(health: Health, report: Report)
    requires health.Valid() && Chronological(health.log + NotedOf(report))
    modifies health
    ensures health.Valid() && health.log == old(health.log) + NotedOf(report)
    ensures old(health.requests == Condemned(health.log)) ==> health.requests == Condemned(health.log)
  {
    hide Trips, Tracks, Chronological, Condemned;
    CondemnedNext(health.log, report.event);
    assert health.log + [] == health.log;
    match report.event {
      case Success(key) => health.RecordSuccess(key);
      case Clear(key) => health.ClearHistory(key);
      case Strike(key, eligible, at) => health.RecordStrike(key, eligible, report.enabled, at);
    }
  }

  /** Over any events in the order of time the deques are the windows, and a quarantine
      is requested at each strike that condemns its plugin, and at no other moment. */
  method Run(reports: seq<Report>) returns (health: Health)
    requires Chronological(Heeded(reports))
    ensures health.Valid() && health.log == Heeded(reports) && health.requests == Condemned(Heeded(reports))
  {
    hide Condemned, Tracks, Chronological, NotedOf;
    health := new Health();
    NobodyCondemned();
    assert reports[..0] == [];
    for i := 0 to |reports|
      invariant fresh(health) && health.Valid() && health.log == Heeded(reports[..i])
      invariant health.requests == Condemned(health.log)
    {
      assert reports[..i + 1][..i] == reports[..i];
      HeededPrefix(reports, i + 1);
      ChronologicalPrefix(Heeded(reports[..i + 1]), Heeded(reports));
      Take(health, reports[i]);
    }
    assert reports[..|reports|] == reports;
  }

  lemma NobodyCondemned()
    ensures Condemned([]) == []
  {
  }
}
