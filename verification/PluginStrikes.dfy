/** When the breaker trips, told by the events alone. */
module PluginStrikes {
  import opened PluginHealth

  /** The plugin was condemned before event `i` and not cleared since. */
  ghost predicate Dead(log: seq<Event>, key: string, i: nat)
    requires i <= |log|
  {
    exists m :: 0 <= m < i && Trips(log, key, m) && forall n :: m < n < i ==> log[n] != Clear(key)
  }

  /** Event `n` ends what was held against the plugin: a clean run, a reload, or the trip. */
  ghost predicate Ends(log: seq<Event>, key: string, n: nat)
    requires n < |log|
  {
    log[n] == Success(key) || log[n] == Clear(key) || Trips(log, key, n)
  }

  /** Strike `j` is still held against the plugin at event `i`. */
  ghost predicate Counts(log: seq<Event>, key: string, j: nat, i: nat)
    requires i <= |log|
  {
    && j < i && log[j].Strike? && log[j].key == key && !Dead(log, key, j)
    && forall n :: j <= n < i ==> !Ends(log, key, n)
  }

  lemma SeenNext(log: seq<Event>, key: string, i: nat)
    requires i < |log|
    ensures Seen(log[..i + 1], key) == Noted(Seen(log[..i], key), key, log[i])
  {
    assert log[..i + 1][..i] == log[..i] && log[..i + 1][i] == log[i];
  }

  lemma {:induction false} CondemnedExactly(log: seq<Event>, key: string, i: nat)
    requires i <= |log|
    ensures Seen(log[..i], key).condemned <==> Dead(log, key, i)
  {
    if i > 0 {
      CondemnedExactly(log, key, i - 1);
      SeenNext(log, key, i - 1);
      DeadNext(log, key, i - 1);
      hide Seen, Dead, Recent;
    }
  }

  lemma DeadNext(log: seq<Event>, key: string, i: nat)
    requires i < |log|
    ensures Dead(log, key, i + 1) <==> Trips(log, key, i) || (Dead(log, key, i) && log[i] != Clear(key))
  {
    hide Trips;
    if Trips(log, key, i) { assert i < i + 1; }
    if Dead(log, key, i) && log[i] != Clear(key) {
      var m :| 0 <= m < i && Trips(log, key, m) && forall n :: m < n < i ==> log[n] != Clear(key);
      assert 0 <= m < i + 1 && Trips(log, key, m);
    }
    if Dead(log, key, i + 1) {
      var m :| 0 <= m < i + 1 && Trips(log, key, m) && forall n :: m < n < i + 1 ==> log[n] != Clear(key);
      assert m < i ==> Dead(log, key, i);
    }
  }

  /** The strikes held against the plugin at event `i`, by their place in the log. */
  ghost function Places(log: seq<Event>, key: string, i: nat): seq<nat>
    requires i <= |log|
  {
    if i == 0 then []
    else if Ends(log, key, i - 1) then []
    else if log[i - 1].Strike? && log[i - 1].key == key && !Dead(log, key, i - 1)
      then Places(log, key, i - 1) + [i - 1]
    else Places(log, key, i - 1)
  }

  /** They are the ones the record holds, in the same order. */
  ghost predicate Records(log: seq<Event>, places: seq<nat>, times: seq<real>)
  {
    && |places| == |times|
    && forall x :: 0 <= x < |places| ==> places[x] < |log| && log[places[x]].Strike? && log[places[x]].at == times[x]
  }

  lemma {:induction false} PlacesAreRecorded(log: seq<Event>, key: string, i: nat)
    requires i <= |log|
    ensures Records(log, Places(log, key, i), Seen(log[..i], key).times)
  {
    if i > 0 {
      PlacesAreRecorded(log, key, i - 1);
      SeenNext(log, key, i - 1);
      CondemnedExactly(log, key, i - 1);
      hide Seen, Dead, Recent;
    } else {
      assert log[..0] == [];
    }
  }

  lemma {:induction false} PlacesCount(log: seq<Event>, key: string, i: nat)
    requires i <= |log|
    ensures forall j :: 0 <= j < i ==> (j in Places(log, key, i) <==> Counts(log, key, j, i))
    ensures forall x, y :: 0 <= x < y < |Places(log, key, i)| ==> Places(log, key, i)[x] < Places(log, key, i)[y]
    ensures forall x :: 0 <= x < |Places(log, key, i)| ==> Places(log, key, i)[x] < i
  {
    hide Dead, Ends;
    if i > 0 {
      PlacesCount(log, key, i - 1);
      var places := Places(log, key, i - 1);
      forall j | 0 <= j < i - 1
        ensures Counts(log, key, j, i) <==> Counts(log, key, j, i - 1) && !Ends(log, key, i - 1)
      {
      }
    }
  }

  /** A strike trips the breaker exactly if it is eligible, the plugin is not condemned
      already, and two earlier strikes are held against it, the older of them at most a
      minute old. */
  lemma TripsExactly(log: seq<Event>, key: string, i: nat)
    requires Chronological(log) && i < |log|
    ensures Trips(log, key, i) <==>
            && log[i].Strike? && log[i].key == key && log[i].eligible && !Dead(log, key, i)
            && exists j, k :: 0 <= j < k < i && Counts(log, key, j, i) && Counts(log, key, k, i)
                              && log[i].at - log[j].at <= 60.0
  {
    CondemnedExactly(log, key, i);
    if log[i].Strike? && log[i].key == key && !Dead(log, key, i) {
      var times, at, places := Seen(log[..i], key).times, log[i].at, Places(log, key, i);
      RecordIsTimely(log, key, i);
      AscendingNext(times, at);
      PlacesAreRecorded(log, key, i);
      PlacesCount(log, key, i);
      WindowHolds(times + [at], at, 3);
      assert (times + [at])[|times|] == at;
      hide Seen, Within, Dead, Counts, Places, Ascending, Chronological;
      assert |Recent(times + [at])| >= 3 <==> |times| >= 2 && at - times[|times| - 2] <= 60.0;
      TwoRecent(log, places, times, at, key, i);
    }
  }

  lemma TwoRecent(log: seq<Event>, places: seq<nat>, times: seq<real>, at: real, key: string, i: nat)
    requires i < |log| && Records(log, places, times) && Chronological(log)
    requires forall j :: 0 <= j < i ==> (j in places <==> Counts(log, key, j, i))
    requires forall x, y :: 0 <= x < y < |places| ==> places[x] < places[y]
    requires forall x :: 0 <= x < |places| ==> places[x] < i
    ensures |times| >= 2 && at - times[|times| - 2] <= 60.0 <==>
            exists j, k :: 0 <= j < k < i && Counts(log, key, j, i) && Counts(log, key, k, i)
                           && at - log[j].at <= 60.0
  {
    var n := |places|;
    if n >= 2 && at - times[n - 2] <= 60.0 {
      var j, k := places[n - 2], places[n - 1];
      assert j in places && k in places && Counts(log, key, j, i) && Counts(log, key, k, i);
    }
    if j, k :| 0 <= j < k < i && Counts(log, key, j, i) && Counts(log, key, k, i) && at - log[j].at <= 60.0 {
      var x :| 0 <= x < n && places[x] == j;
      var y :| 0 <= y < n && places[y] == k;
      assert x <= n - 2;
      assert places[x] <= places[n - 2];
      assert log[places[x]].at <= log[places[n - 2]].at;
    }
  }

  // ---- What is heeded --------------------------------------------------------------------

  /** Reports that name a plugin, strikes only while the breaker is enabled, are all
      heeded, in order. */
  lemma {:induction false} AllHeeded(reports: seq<Report>)
    requires forall r :: r in reports ==> r.event.key != "" && (r.event.Strike? ==> r.enabled)
    ensures |Heeded(reports)| == |reports| && forall i :: 0 <= i < |reports| ==> Heeded(reports)[i] == reports[i].event
  {
    if reports != [] {
      var n := |reports| - 1;
      assert reports[n] in reports;
      AllHeeded(reports[..n]);
    }
  }

  /** Any other report might as well not have come. */
  lemma {:induction false} OthersUnheeded(before: seq<Report>, r: Report, after: seq<Report>)
    requires r.event.key == "" || (r.event.Strike? && !r.enabled)
    ensures Heeded(before + [r] + after) == Heeded(before + after)
  {
    var all := before + [r] + after;
    if after == [] {
      assert all[..|all| - 1] == before && all[|all| - 1] == r && before + after == before;
    } else {
      var n := |after| - 1;
      assert all[..|all| - 1] == before + [r] + after[..n] && all[|all| - 1] == after[n];
      var all := before + after;
      assert all[..|all| - 1] == before + after[..n] && all[|all| - 1] == after[n];
      OthersUnheeded(before, r, after[..n]);
    }
  }
}
