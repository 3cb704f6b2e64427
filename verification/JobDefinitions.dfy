/** Job definitions, what normalizing makes of them, and when a job fires. */
module JobDefinitions {
  import opened Basics

  datatype Error = MissingChannel | PayloadNotObject | PayloadNotJson | NeedsRunAt | HasCron | BadRunAt
                 | NeedsCron | HasRunAt | BadCron | NameTaken | UnknownJob | NeverFires

  datatype Result<+T> = Ok(value: T) | Err(error: Error)

  /** A `run_at` text: absent, not a date, without a zone, or with one. Instants
      and wall-clock times are counted in one unit; a zone is an offset. */
  datatype Text = Blank | Unreadable | Naive(wall: int) | Aware(instant: int, offset: int)

  datatype Payload = NotObject | NotJson | Object(text: string)

  datatype Job = Job(enabled: bool, channel: string, cron: string, runAt: Text, oneTime: bool, payload: Payload)

  /** The fields an update names. */
  datatype Patch = Patch(enabled: Option<bool>, channel: Option<string>, cron: Option<string>, runAt: Option<Text>,
                         oneTime: Option<bool>, payload: Option<Payload>)

  /** The local zone and the cron library: `next` is the least fire time after a
      moment, if there is one. */
  datatype Clock = Clock(zone: int -> int, accepts: string -> bool, fires: (string, int) -> bool,
                         next: (string, int) -> Option<int>)

  ghost predicate LeastAfter(clock: Clock)
  {
    forall c, t ::
      match clock.next(c, t)
      case None => forall v :: v > t ==> !clock.fires(c, v)
      case Some(u) => u > t && clock.fires(c, u) && forall v :: t < v < u ==> !clock.fires(c, v)
  }

  // ---- Normalizing a definition ---------------------------------------------

  /** A moment without a zone is taken to be in the zone of `now`. */
  function ParseDatetime(clock: Clock, text: Text, now: int): Result<Text>
  {
    match text
    case Naive(wall) => Ok(Aware(wall - clock.zone(now), clock.zone(now)))
    case Aware(instant, _) => Ok(Aware(instant, clock.zone(instant)))
    case _ => Err(BadRunAt)
  }

  function Normalize(clock: Clock, def: Job, now: int): Result<Job>
  {
    var job := def.(channel := Strip(def.channel));
    if job.channel == "" then Err(MissingChannel)
    else if job.payload.NotObject? then Err(PayloadNotObject)
    else if job.payload.NotJson? then Err(PayloadNotJson)
    else if job.oneTime then
      if job.runAt.Blank? then Err(NeedsRunAt)
      else if job.cron != "" then Err(HasCron)
      else
        match ParseDatetime(clock, job.runAt, now)
        case Err(e) => Err(e)
        case Ok(at) => Ok(job.(runAt := at))
    else if job.cron == "" then Err(NeedsCron)
    else if !job.runAt.Blank? then Err(HasRunAt)
    else if !clock.accepts(job.cron) then Err(BadCron)
    else Ok(job)
  }

  /** The same moment as the local zone writes it at that moment. */
  function Localized(clock: Clock, text: Text): Text
  {
    if text.Aware? then Aware(text.instant, clock.zone(text.instant)) else text
  }

  predicate Trimmed(s: string)
  {
    s == "" || (!IsSpace(s[0]) && !IsSpace(s[|s| - 1]))
  }

  lemma {:induction false} LStripTrims(s: string)
    ensures LStrip(s) == "" || !IsSpace(LStrip(s)[0])
  {
    if s != "" && IsSpace(s[0]) { LStripTrims(s[1..]); }
  }

  lemma {:induction false} RStripTrims(s: string)
    ensures RStrip(s) == "" || !IsSpace(RStrip(s)[|RStrip(s)| - 1])
    ensures RStrip(s) <= s
  {
    if s != "" && IsSpace(s[|s| - 1]) { RStripTrims(s[..|s| - 1]); }
  }

  lemma StripTrims(s: string)
    ensures Trimmed(Strip(s))
    ensures Trimmed(s) ==> Strip(s) == s
  {
    LStripTrims(s);
    RStripTrims(LStrip(s));
  }

  /** What a normalized job looks like. */
  predicate Canonical(clock: Clock, job: Job)
  {
    && job.channel != "" && Trimmed(job.channel) && job.payload.Object?
    && if job.oneTime then job.cron == "" && job.runAt.Aware?
       else job.cron != "" && job.runAt.Blank? && clock.accepts(job.cron)
  }

  /** The moment is given with a zone, or in the local zone of the moment of entry. */
  ghost predicate Means(clock: Clock, text: Text, now: int, at: int)
  {
    text == Naive(at + clock.zone(now)) || (text.Aware? && text.instant == at)
  }

  /** A definition is taken exactly if it names a channel and an object to send, and
      either a moment and no cron, or a cron that is accepted and no moment; then every
      field stays as it is, the channel trimmed and the moment the one that was meant. */
  lemma NormalizeExactly(clock: Clock, def: Job, now: int)
    ensures Normalize(clock, def, now).Ok? <==>
              && Strip(def.channel) != "" && def.payload.Object?
              && (def.oneTime ==> (def.runAt.Naive? || def.runAt.Aware?) && def.cron == "")
              && (!def.oneTime ==> def.runAt.Blank? && def.cron != "" && clock.accepts(def.cron))
    ensures Normalize(clock, def, now).Ok? ==>
              var job := Normalize(clock, def, now).value;
              && job.enabled == def.enabled && job.channel == Strip(def.channel) && job.cron == def.cron
              && job.oneTime == def.oneTime && job.payload == def.payload
              && (job.oneTime ==> job.runAt.Aware? && Means(clock, def.runAt, now, job.runAt.instant))
              && (!job.oneTime ==> job.runAt.Blank?)
  {
    hide Strip;
  }

  lemma NormalizedIsCanonical(clock: Clock, def: Job, now: int)
    requires Normalize(clock, def, now).Ok?
    ensures Canonical(clock, Normalize(clock, def, now).value)
  {
    StripTrims(def.channel);
    hide Strip, Trimmed;
  }

  /** Normalizing again never fails, keeps every field and the moment, and may at
      most write the moment with another offset. */
  lemma NormalizeAgain(clock: Clock, job: Job, now: int)
    requires Canonical(clock, job)
    ensures Normalize(clock, job, now) == Ok(job.(runAt := Localized(clock, job.runAt)))
  {
    StripTrims(job.channel);
    hide Strip, Trimmed;
  }

  /** A normalized job is a fixed point exactly when it is repeating, or its
      moment was given with a zone, or the local zone has the same offset now as
      at that moment. */
  lemma NormalizeIdempotentExactly(clock: Clock, def: Job, now: int, later: int)
    requires Normalize(clock, def, now).Ok?
    ensures Normalize(clock, Normalize(clock, def, now).value, later) == Normalize(clock, def, now)
       <==> (!def.oneTime || !def.runAt.Naive? || clock.zone(now) == clock.zone(def.runAt.wall - clock.zone(now)))
  {
    NormalizedIsCanonical(clock, def, now);
    NormalizeAgain(clock, Normalize(clock, def, now).value, later);
    hide Strip, Trimmed;
  }

  /** Two hours, the clocks change at 100: a moment of 150 by the wall, entered
      before the change, is written with the wrong offset and rewritten later. */
  lemma NaiveMomentIsRewritten(clock: Clock, later: int)
    requires forall t :: clock.zone(t) == if t < 100 then 1 else 2
    ensures var def := Job(true, "c", "", Naive(150), true, Object("{}"));
            && Normalize(clock, def, 0) == Ok(def.(runAt := Aware(149, 1)))
            && Normalize(clock, def.(runAt := Aware(149, 1)), later) == Ok(def.(runAt := Aware(149, 2)))
  {
    StripTrims("c");
  }

  /** From the second time on normalizing changes nothing. */
  lemma NormalizeTwiceIsFixed(clock: Clock, def: Job, now: int, later: int, last: int)
    requires Normalize(clock, def, now).Ok?
    ensures var twice := Normalize(clock, Normalize(clock, def, now).value, later);
            twice.Ok? && Normalize(clock, twice.value, last) == twice
  {
    var job := Normalize(clock, def, now).value;
    NormalizedIsCanonical(clock, def, now);
    NormalizeAgain(clock, job, later);
    hide Strip, Trimmed, Normalize;
    NormalizeAgain(clock, job.(runAt := Localized(clock, job.runAt)), last);
  }

  function Merge(job: Job, patch: Patch): Job
  {
    Job(Or(patch.enabled, job.enabled), Or(patch.channel, job.channel), Or(patch.cron, job.cron),
        Or(patch.runAt, job.runAt), Or(patch.oneTime, job.oneTime), Or(patch.payload, job.payload))
  }

  function Or<T>(a: Option<T>, b: T): T
  {
    if a.Some? then a.value else b
  }

  /** The job has every field the patch names, as a definition says it, and every other
      field as it was. */
  ghost predicate Patched(clock: Clock, before: Job, patch: Patch, now: int, job: Job)
  {
    && job.enabled == (if patch.enabled.Some? then patch.enabled.value else before.enabled)
    && job.channel == Strip(if patch.channel.Some? then patch.channel.value else before.channel)
    && job.cron == (if patch.cron.Some? then patch.cron.value else before.cron)
    && job.oneTime == (if patch.oneTime.Some? then patch.oneTime.value else before.oneTime)
    && job.payload == (if patch.payload.Some? then patch.payload.value else before.payload)
    && (job.oneTime ==> job.runAt.Aware?
                        && Means(clock, if patch.runAt.Some? then patch.runAt.value else before.runAt, now,
                                 job.runAt.instant))
    && (!job.oneTime ==> job.runAt.Blank?)
  }

  lemma MergedIsPatched(clock: Clock, before: Job, patch: Patch, now: int)
    ensures var r := Normalize(clock, Merge(before, patch), now); r.Ok? ==> Patched(clock, before, patch, now, r.value)
  {
    NormalizeExactly(clock, Merge(before, patch), now);
    hide Normalize, Strip;
  }

  /** When a job next fires; an error if its cron never does. */
  function NextFire(clock: Clock, job: Job, from: int): Result<Option<int>>
  {
    if !job.enabled then Ok(None)
    else if job.oneTime then
      Ok(if job.runAt.Aware? && job.runAt.instant >= from then Some(job.runAt.instant) else None)
    else
      match clock.next(job.cron, from)
      case None => Err(NeverFires)
      case Some(u) => Ok(Some(u))
  }

  /** What a fire time has to be: none for a disabled job; the moment of a one-time job
      that has not passed, none if it has; the next time of a repeating one. */
  ghost predicate FiresNext(clock: Clock, job: Job, from: int, fire: Option<int>)
  {
    && (!job.enabled ==> fire == None)
    && (job.enabled && job.oneTime && job.runAt.Aware? && job.runAt.instant < from ==> fire == None)
    && (job.enabled && job.oneTime && job.runAt.Aware? && from <= job.runAt.instant ==> fire == Some(job.runAt.instant))
    && (job.enabled && !job.oneTime ==> fire.Some? && fire == clock.next(job.cron, from))
  }

  /** The fire time is what it has to be; there is an error exactly for an enabled
      repeating job whose schedule has no time left. */
  lemma NextFireExactly(clock: Clock, job: Job, from: int)
    requires Canonical(clock, job)
    ensures NextFire(clock, job, from).Ok? ==> FiresNext(clock, job, from, NextFire(clock, job, from).value)
    ensures NextFire(clock, job, from).Err? <==> job.enabled && !job.oneTime && clock.next(job.cron, from).None?
  {
  }

  /** A cron that is accepted and never fires, such as the thirtieth of February. */
  ghost predicate NeverFiring(clock: Clock, cron: string)
  {
    clock.accepts(cron) && forall t :: clock.next(cron, t).None?
  }

  /** A schedule that fires once goes on firing. */
  ghost predicate Unending(clock: Clock, cron: string)
  {
    forall t :: clock.next(cron, t).Some? ==> clock.next(cron, clock.next(cron, t).value).Some?
  }
}
