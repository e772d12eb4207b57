/**
 Copying runs and the ledger: when the consumer completes a job with what the
 provider reported, a confirmation succeeds exactly when both sides stored the
 same offer payload, and the confirmed deltas of the two tables differ by exactly
 the Ok responses that were not processed.
 */
module Ledger {
  import opened Base
  import opened Hashing
  import opened Jobs
  import opened Protocol

  // The consumer completes a job with what a GetJob response said.
  predicate CopyingStep(w: World, step: Step) {
    step.ConsumerComplete? ==>
      Report(step.key, Some(step.completion.publicPayload), step.completion.delta,
             Some(step.completion.completedAtSync)) in w.reports
  }

  predicate CopyingRun(x: Parties, steps: seq<Step>) {
    steps == [] ||
    (CopyingRun(x, steps[..|steps| - 1]) && CopyingStep(After(x, steps[..|steps| - 1]), steps[|steps| - 1]))
  }

  // Every provided offer names a row with its own payload.
  predicate OffersAnchored(steps: seq<Step>) {
    forall step | step in steps && step.CreateJob? && step.found.Some? ::
      step.found.value.rowPayload == step.found.value.payload
  }

  predicate HonestRun(x: Parties, steps: seq<Step>) {
    CopyingRun(x, steps) && OffersAnchored(steps)
  }

  // The consumer's key decodes and its signatures verify.
  ghost predicate IdealSignature(x: Parties) {
    x.env.decodes(x.publicKey) && forall m :: x.env.verify(x.publicKey, m, x.sign(m))
  }

  // ------------------------------------------------------- what copying maintains

  predicate CreatedAs(r: Created, row: JobRow) {
    row.protocolId == r.protocolId && row.currency == r.currency && row.createdAtSync == r.createdAtSync
  }

  predicate ReportedAs(r: Report, row: JobRow) {
    r.completedAtSync.Some? ==>
      r.completedAtSync == row.completedAtSync && r.publicPayload == row.publicPayload && r.balanceDelta == row.balanceDelta
  }

  predicate CompletedAlike(c: JobRow, p: JobRow) {
    c.consumerSignature.Some? ==>
      && Completed(p) && c.publicPayload == p.publicPayload && c.completedAtSync == p.completedAtSync
      && c.balanceDelta == EncodedDelta(p.balanceDelta)
  }

  predicate SameButOfferPayload(c: JobRow, p: JobRow) {
    SameCreationRow(c, p.(offerPayload := c.offerPayload))
  }

  ghost predicate Agreeing(w: World) {
    && (forall r | r in w.created :: r.key in w.p && CreatedAs(r, w.p[r.key]))
    && (forall r | r in w.reports :: r.key in w.p && ReportedAs(r, w.p[r.key]))
    && (forall k | k in w.c :: k in w.p && SameButOfferPayload(w.c[k], w.p[k]) && CompletedAlike(w.c[k], w.p[k]))
  }

  lemma AdvancingKeepsAgreement(x: Parties, w: World, w': World)
    requires RowsOk(x, w) && RowsOk(x, w') && Advances(w, w') && Agreeing(w)
    requires w'.created == w.created && w'.reports == w.reports && w'.c.Keys == w.c.Keys
    requires forall k | k in w.c && w'.c[k].consumerSignature.Some? :: w.c[k].consumerSignature.Some?
    ensures Agreeing(w')
  {
  }

  lemma CreatingKeepsAgreement(x: Parties, w: World, step: Step)
    requires RowsOk(x, w) && Agreeing(w) && step.CreateJob?
    ensures Agreeing(Next(x, w, step))
  {
    var w' := CreatedJob(x, w, step);
    var key := JobKey(x.provider, step.jobId);
    if w' != w {
      forall k | k in w.p
        ensures w'.p[k] == w.p[k]
      {
      }
    }
  }

  lemma AcceptingKeepsAgreement(x: Parties, w: World, r: Created)
    requires RowsOk(x, w) && Agreeing(w)
    ensures Agreeing(AcceptedJob(x, w, r))
  {
  }

  lemma ReportingKeepsAgreement(x: Parties, w: World, key: JobKey)
    requires RowsOk(x, w) && Agreeing(w)
    ensures Agreeing(Reported(x, w, key))
  {
  }

  lemma CompletingKeepsAgreement(x: Parties, w: World, key: JobKey, a: Completion, now: int)
    requires RowsOk(x, w) && Agreeing(w) && CopyingStep(w, ConsumerComplete(key, a, now))
    ensures Agreeing(CompletedByConsumer(x, w, key, a, now))
  {
    var w' := CompletedByConsumer(x, w, key, a, now);
    if w' != w {
      var r := Report(key, Some(a.publicPayload), a.delta, Some(a.completedAtSync));
      assert r in w.reports && ReportedAs(r, w.p[key]);
      assert CompletedAlike(w'.c[key], w.p[key]);
    }
  }

  lemma OtherStepsSignNothing(x: Parties, w: World, step: Step)
    requires !step.CreateJob? && !step.AcceptJob? && !step.AskJob? && !step.ConsumerComplete?
    ensures var w' := Next(x, w, step);
      && w'.created == w.created && w'.reports == w.reports && w'.c.Keys == w.c.Keys
      && forall k | k in w.c && w'.c[k].consumerSignature.Some? :: w.c[k].consumerSignature.Some?
  {
  }

  lemma StepKeepsAgreement(x: Parties, w: World, step: Step)
    requires Safe(x, w) && Agreeing(w) && CopyingStep(w, step)
    ensures Agreeing(Next(x, w, step))
  {
    match step
    case CreateJob(_, _, _, _, _, _, _) => CreatingKeepsAgreement(x, w, step);
    case AcceptJob(r) => AcceptingKeepsAgreement(x, w, r);
    case AskJob(key) => ReportingKeepsAgreement(x, w, key);
    case ConsumerComplete(key, a, now) => CompletingKeepsAgreement(x, w, key, a, now);
    case _ =>
      OtherStepsSignNothing(x, w, step);
      StepKeepsSafe(x, w, step);
      AdvancingKeepsAgreement(x, w, Next(x, w, step));
  }

  lemma {:induction false} CopyingRunsAgree(x: Parties, steps: seq<Step>)
    requires CopyingRun(x, steps)
    ensures Agreeing(After(x, steps))
  {
    if steps != [] {
      CopyingRunsAgree(x, steps[..|steps| - 1]);
      AlwaysSafe(x, steps[..|steps| - 1]);
      StepKeepsAgreement(x, After(x, steps[..|steps| - 1]), steps[|steps| - 1]);
    }
  }

  // ---------------------------------------------------------- offer payloads

  // Whatever a response or a consumer row says of a job's creation is what the provider's row says.
  ghost predicate OneOrigin(w: World) {
    && (forall r | r in w.created ::
          r.key in w.p && CreatedAs(r, w.p[r.key]) && r.offerPayload == w.p[r.key].offerPayload)
    && (forall k | k in w.c :: k in w.p && SameCreationRow(w.c[k], w.p[k]))
  }

  lemma StepKeepsOneOrigin(x: Parties, w: World, step: Step)
    requires Safe(x, w) && OneOrigin(w)
    requires step.CreateJob? && step.found.Some? ==> step.found.value.rowPayload == step.found.value.payload
    ensures OneOrigin(Next(x, w, step))
  {
    if step.CreateJob? {
      CreatingKeepsOneOrigin(x, w, step);
    } else if step.AcceptJob? {
      AcceptingKeepsOneOrigin(x, w, step.accepted);
    } else {
      StepKeepsSafe(x, w, step);
      OtherStepsCreateNothing(x, w, step);
      AdvancingKeepsOneOrigin(w, Next(x, w, step));
    }
  }

  lemma OtherStepsCreateNothing(x: Parties, w: World, step: Step)
    requires !step.CreateJob? && !step.AcceptJob?
    ensures Next(x, w, step).created == w.created && Next(x, w, step).c.Keys == w.c.Keys
  {
  }

  lemma CreatingKeepsOneOrigin(x: Parties, w: World, step: Step)
    requires RowsOk(x, w) && OneOrigin(w) && step.CreateJob?
    requires step.found.Some? ==> step.found.value.rowPayload == step.found.value.payload
    ensures OneOrigin(CreatedJob(x, w, step))
  {
  }

  lemma AcceptingKeepsOneOrigin(x: Parties, w: World, r: Created)
    requires RowsOk(x, w) && OneOrigin(w)
    ensures OneOrigin(AcceptedJob(x, w, r))
  {
    if r in w.created {
      assert ProviderRowOk(x, r.key, w.p[r.key]);
    }
  }

  lemma AdvancingKeepsOneOrigin(w: World, w': World)
    requires OneOrigin(w) && Advances(w, w') && w'.created == w.created && w'.c.Keys == w.c.Keys
    ensures OneOrigin(w')
  {
    forall k | k in w'.c
      ensures k in w'.p && SameCreationRow(w'.c[k], w'.p[k])
    {
      assert ConsumerAdvances(w.c[k], w'.c[k]) && ProviderAdvances(w.p[k], w'.p[k]);
    }
    forall r | r in w'.created
      ensures r.key in w'.p && CreatedAs(r, w'.p[r.key]) && r.offerPayload == w'.p[r.key].offerPayload
    {
      assert ProviderAdvances(w.p[r.key], w'.p[r.key]);
    }
  }

  // If every found offer names a row with its payload, both sides agree on all that was fixed when
  // the job was created, the offer payload included.
  lemma {:induction false} JobsHaveOneOrigin(x: Parties, steps: seq<Step>)
    requires OffersAnchored(steps)
    ensures OneOrigin(After(x, steps))
  {
    if steps != [] {
      var n := |steps| - 1;
      assert forall step | step in steps[..n] :: step in steps;
      JobsHaveOneOrigin(x, steps[..n]);
      AlwaysSafe(x, steps[..n]);
      assert steps[n] in steps;
      StepKeepsOneOrigin(x, After(x, steps[..n]), steps[n]);
    }
  }

  // -------------------------------------------------------------- hash agreement

  // Raw delta hashed through its encoding on one side, stored encoding on the other: the two
  // preimages are equal exactly when the stored offer payloads are.
  lemma SharedOfferPayloadDecides(c: JobRow, p: JobRow)
    requires Completed(c) && CompletedAlike(c, p) && c.consumerSignature.Some?
    requires SameButOfferPayload(c, p)
    ensures Preimage(ConsumerPayload(c)) == Preimage(ProviderPayload(p)) <==> c.offerPayload == p.offerPayload
  {
    OfferPayloadDecides(ConsumerPayload(c), ProviderPayload(p));
  }

  ghost predicate Injective(digest: Text -> Text) {
    forall a, b :: digest(a) == digest(b) ==> a == b
  }

  // What a task is answered in a copying run, but for the comparison of the hashes.
  lemma {:induction false} CopyingVerdict(x: Parties, steps: seq<Step>, i: nat)
    requires CopyingRun(x, steps) && IdealSignature(x)
    requires i < |After(x, steps).tasks|
    ensures var w := After(x, steps); var t := w.tasks[i];
      && t.key in w.c && t.key in w.p && Confirmable(w.p, t.key) && Completed(w.c[t.key]) && Completed(w.p[t.key])
      && w.c[t.key].consumerSignature.Some?
      && SameButOfferPayload(w.c[t.key], w.p[t.key]) && CompletedAlike(w.c[t.key], w.p[t.key])
      && ConfirmVerdict(x.env, w.p, x.consumer, RequestOf(x, t)) ==
         if w.p[t.key].confirmedAt.Some? then ConfirmAlreadyConfirmed
         else if w.p[t.key].reason.Some? then ConfirmAlreadyFailed
         else if ConsumerHash(x.env, w.c[t.key]) == ProviderHash(x.env, w.p[t.key]) then Confirmed
         else ConfirmHashMismatch(ProviderHash(x.env, w.p[t.key]))
  {
    var w := After(x, steps);
    var t := w.tasks[i];
    AlwaysSafe(x, steps);
    CopyingRunsAgree(x, steps);
    assert TaskOk(x, w, t);
    assert ConsumerRowOk(x, t.key, w.c[t.key]) && ProviderRowOk(x, t.key, w.p[t.key]);
    assert x.env.verify(x.publicKey, t.hash, x.sign(t.hash));
  }

  // A confirm request of a copying run never meets an invalid signature. While the provider row is
  // neither confirmed nor failed it is answered Ok exactly when both sides stored one offer
  // payload, and with a hash mismatch, naming the provider's hash, exactly when they did not.
  lemma {:induction false} CopyingConfirmsDecided(x: Parties, steps: seq<Step>, i: nat, now: int)
    requires CopyingRun(x, steps) && IdealSignature(x) && Injective(x.env.digest)
    requires i < |After(x, steps).tasks| && After(x, steps).tasks[i].answer.None?
    ensures var w := After(x, steps); var k := w.tasks[i].key;
      && k in w.c && k in w.p && Completed(w.p[k])
      && IsAnswered(x, w, i, now,
           if w.p[k].confirmedAt.Some? then AlreadyConfirmed
           else if w.p[k].reason.Some? then AlreadyFailed
           else if w.c[k].offerPayload == w.p[k].offerPayload then ConfirmOk
           else HashMismatch(ProviderHash(x.env, w.p[k])))
  {
    var w := After(x, steps);
    var k := w.tasks[i].key;
    CopyingVerdict(x, steps, i);
    SharedOfferPayloadDecides(w.c[k], w.p[k]);
    AlwaysSafe(x, steps);
    assert ProviderRowOk(x, k, w.p[k]);
    DeliveryIsAnswered(x, w, i, now);
  }

  // In an honest run both sides store one payload, so a confirm request succeeds exactly when the
  // provider row is neither confirmed nor failed, whatever the digest.
  lemma {:induction false} HonestConfirmsSucceed(x: Parties, steps: seq<Step>, i: nat, now: int)
    requires HonestRun(x, steps) && IdealSignature(x)
    requires i < |After(x, steps).tasks| && After(x, steps).tasks[i].answer.None?
    ensures var w := After(x, steps); var k := w.tasks[i].key;
      && k in w.p
      && IsAnswered(x, w, i, now,
           if w.p[k].confirmedAt.Some? then AlreadyConfirmed
           else if w.p[k].reason.Some? then AlreadyFailed
           else ConfirmOk)
  {
    var w := After(x, steps);
    var k := w.tasks[i].key;
    CopyingVerdict(x, steps, i);
    JobsHaveOneOrigin(x, steps);
    SharedOfferPayloadDecides(w.c[k], w.p[k]);
    AlwaysSafe(x, steps);
    assert ProviderRowOk(x, k, w.p[k]);
    DeliveryIsAnswered(x, w, i, now);
  }

  function DeltaValue(env: Env, delta: Option<Text>): nat {
    if delta.Some? && env.parse(delta.value).Some? then env.parse(delta.value).value else 0
  }

  function ProviderDelta(env: Env, row: JobRow): nat {
    DeltaValue(env, row.balanceDelta)
  }

  function ConsumerDelta(env: Env, row: JobRow): nat {
    if row.balanceDelta.Some? then DeltaValue(env, UnHex(row.balanceDelta.value)) else 0
  }

  // ------------------------------------------------------------ what the hash is for

  // In every run, whatever the consumer signed: once the provider has confirmed a job, both sides
  // have one hash of it.
  lemma {:induction false} ConfirmedJobsShareTheHash(x: Parties, steps: seq<Step>, k: JobKey)
    requires k in After(x, steps).p && After(x, steps).p[k].confirmedAt.Some?
    ensures var w := After(x, steps);
      && k in w.c && Completed(w.c[k]) && Completed(w.p[k])
      && ConsumerHash(x.env, w.c[k]) == ProviderHash(x.env, w.p[k])
  {
    var w := After(x, steps);
    AlwaysSafe(x, steps);
    assert OkFor(w.tasks, k);
    var i :| 0 <= i < |w.tasks| && SaidOk(w.tasks[i]) && w.tasks[i].key == k;
    assert TaskOk(x, w, w.tasks[i]);
    assert ConsumerRowOk(x, k, w.c[k]);
  }

  // So with an injective digest, ten-digit times and public payloads of one length, both sides
  // billed the same: payload, time and delta, be the consumer honest or not.
  lemma {:induction false} ConfirmedJobsAreBilledAlike(x: Parties, steps: seq<Step>, k: JobKey)
    requires Injective(x.env.digest) && OffersAnchored(steps)
    requires k in After(x, steps).p && After(x, steps).p[k].confirmedAt.Some?
    ensures var w := After(x, steps);
      && k in w.c && Completed(w.c[k]) && Completed(w.p[k])
      && Preimage(ConsumerPayload(w.c[k])) == Preimage(ProviderPayload(w.p[k]))
      && (TenDigitTime(w.c[k].completedAtSync.value) && TenDigitTime(w.p[k].completedAtSync.value)
          && |w.c[k].publicPayload.value| == |w.p[k].publicPayload.value| ==>
            && w.c[k].publicPayload == w.p[k].publicPayload
            && w.c[k].completedAtSync == w.p[k].completedAtSync
            && OrEmpty(w.c[k].balanceDelta) == OrEmpty(EncodedDelta(w.p[k].balanceDelta))
            && (w.c[k].balanceDelta.Some? && w.p[k].balanceDelta.Some? ==>
                  ConsumerDelta(x.env, w.c[k]) == ProviderDelta(x.env, w.p[k])))
  {
    var w := After(x, steps);
    ConfirmedJobsShareTheHash(x, steps, k);
    JobsHaveOneOrigin(x, steps);
    var c, p := ConsumerPayload(w.c[k]), ProviderPayload(w.p[k]);
    if TenDigitTime(w.c[k].completedAtSync.value) && TenDigitTime(w.p[k].completedAtSync.value)
       && |w.c[k].publicPayload.value| == |w.p[k].publicPayload.value|
    {
      PreimageDeterminesCompletion(c, p);
      if w.p[k].balanceDelta.Some? {
        HexRoundTrip(w.p[k].balanceDelta.value);
      }
    }
  }

  // ----------------------------------------------------------------------- totals

  ghost function Total(keys: set<JobKey>, value: JobKey -> nat): nat {
    if keys == {} then 0
    else
      var k :| k in keys;
      value(k) + Total(keys - {k}, value)
  }

  lemma {:induction false} TotalRemove(keys: set<JobKey>, value: JobKey -> nat, k: JobKey)
    requires k in keys
    ensures Total(keys, value) == value(k) + Total(keys - {k}, value)
  {
    var l :| l in keys && Total(keys, value) == value(l) + Total(keys - {l}, value);
    if l != k {
      TotalRemove(keys - {l}, value, k);
      TotalRemove(keys - {k}, value, l);
      assert keys - {l} - {k} == keys - {k} - {l};
    }
  }

  lemma {:induction false} TotalSplit(a: set<JobKey>, b: set<JobKey>, value: JobKey -> nat)
    requires a !! b
    ensures Total(a + b, value) == Total(a, value) + Total(b, value)
  {
    if a == {} {
      assert a + b == b;
    } else {
      var k :| k in a;
      TotalRemove(a + b, value, k);
      TotalRemove(a, value, k);
      assert a + b - {k} == (a - {k}) + b;
      TotalSplit(a - {k}, b, value);
    }
  }

  lemma {:induction false} TotalSame(keys: set<JobKey>, v: JobKey -> nat, w: JobKey -> nat)
    requires forall k | k in keys :: v(k) == w(k)
    ensures Total(keys, v) == Total(keys, w)
  {
    if keys != {} {
      var k :| k in keys;
      TotalRemove(keys, v, k);
      TotalRemove(keys, w, k);
      TotalSame(keys - {k}, v, w);
    }
  }

  // ------------------------------------------------------------------- the ledger

  ghost function ConfirmedKeys(rows: JobRows): set<JobKey> {
    set k | k in rows && rows[k].confirmedAt.Some?
  }

  // Jobs whose Ok is on its way to the consumer or was lost.
  ghost function OutstandingOks(tasks: seq<Task>): set<JobKey> {
    set i | 0 <= i < |tasks| && SaidOk(tasks[i]) && !tasks[i].outcome.Received? :: tasks[i].key
  }

  // In every run, honest or not: provider-confirmed jobs are the consumer-confirmed ones and
  // the ones with an outstanding Ok, and no job is both.
  lemma {:induction false} ConfirmationsPartition(x: Parties, steps: seq<Step>)
    ensures var w := After(x, steps);
      && ConfirmedKeys(w.p) == ConfirmedKeys(w.c) + OutstandingOks(w.tasks)
      && ConfirmedKeys(w.c) !! OutstandingOks(w.tasks)
  {
    var w := After(x, steps);
    AlwaysSafe(x, steps);
    SafePartition(x, w);
  }

  lemma SafePartition(x: Parties, w: World)
    requires Safe(x, w)
    ensures ConfirmedKeys(w.p) == ConfirmedKeys(w.c) + OutstandingOks(w.tasks)
    ensures ConfirmedKeys(w.c) !! OutstandingOks(w.tasks)
  {
  }

  predicate Finished(w: World, i: nat, t: Task) {
    i < |w.tasks| && w.tasks[i] == t && t.answer.Some? && !t.outcome.Waiting?
  }

  lemma FinishedTasksStay(x: Parties, w: World, step: Step, i: nat, t: Task)
    requires Finished(w, i, t)
    ensures Finished(Next(x, w, step), i, t)
  {
  }

  lemma FinishedNext(x: Parties, steps: seq<Step>, i: nat, t: Task)
    requires steps != [] && Finished(After(x, steps[..|steps| - 1]), i, t)
    ensures Finished(After(x, steps), i, t)
  {
    FinishedTasksStay(x, After(x, steps[..|steps| - 1]), steps[|steps| - 1], i, t);
  }

  lemma {:induction false} FinishedTasksStayForever(x: Parties, steps: seq<Step>, n: nat, i: nat, t: Task)
    requires n <= |steps| && Finished(After(x, steps[..n]), i, t)
    ensures Finished(After(x, steps), i, t)
    decreases |steps|
  {
    if n == |steps| {
      assert steps[..n] == steps;
    } else {
      assert steps[..|steps| - 1][..n] == steps[..n];
      FinishedTasksStayForever(x, steps[..|steps| - 1], n, i, t);
      FinishedNext(x, steps, i, t);
    }
  }

  // Once the task that was to receive a job's Ok has given up, no later step of any kind ever
  // confirms the job on the consumer.
  lemma {:induction false} LostOksAreFinal(x: Parties, steps: seq<Step>, n: nat, i: nat, t: Task)
    requires n <= |steps| && Finished(After(x, steps[..n]), i, t) && SaidOk(t) && t.outcome.GaveUp?
    ensures t.key !in ConfirmedKeys(After(x, steps).c)
  {
    var w := After(x, steps);
    FinishedTasksStayForever(x, steps, n, i, t);
    AlwaysSafe(x, steps);
    SafePartition(x, w);
    assert t.key in OutstandingOks(w.tasks);
  }

  ghost function ProviderValue(x: Parties, w: World): JobKey -> nat {
    k => if k in w.p then ProviderDelta(x.env, w.p[k]) else 0
  }

  ghost function ConsumerValue(x: Parties, w: World): JobKey -> nat {
    k => if k in w.c then ConsumerDelta(x.env, w.c[k]) else 0
  }

  lemma DeltasAgree(x: Parties, c: JobRow, p: JobRow)
    requires CompletedAlike(c, p) && c.consumerSignature.Some?
    ensures ConsumerDelta(x.env, c) == ProviderDelta(x.env, p)
  {
    if p.balanceDelta.Some? {
      HexRoundTrip(p.balanceDelta.value);
    }
  }

  // Conservation: what the provider counts as earned is what the consumer counts as spent plus
  // the deltas of the Oks it has not processed.
  lemma {:induction false} LedgerBalances(x: Parties, steps: seq<Step>)
    requires CopyingRun(x, steps)
    ensures var w := After(x, steps);
      Total(ConfirmedKeys(w.p), ProviderValue(x, w)) ==
        Total(ConfirmedKeys(w.c), ConsumerValue(x, w)) + Total(OutstandingOks(w.tasks), ProviderValue(x, w))
  {
    var w := After(x, steps);
    AlwaysSafe(x, steps);
    CopyingRunsAgree(x, steps);
    SafePartition(x, w);
    TotalSplit(ConfirmedKeys(w.c), OutstandingOks(w.tasks), ProviderValue(x, w));
    forall k | k in ConfirmedKeys(w.c)
      ensures ConsumerValue(x, w)(k) == ProviderValue(x, w)(k)
    {
      assert ConsumerRowOk(x, k, w.c[k]);
      DeltasAgree(x, w.c[k], w.p[k]);
    }
    TotalSame(ConfirmedKeys(w.c), ConsumerValue(x, w), ProviderValue(x, w));
  }

  // What a provider-confirmed job counts for is what its module billed.
  lemma {:induction false} CountedDeltasWereBilled(x: Parties, steps: seq<Step>, k: JobKey)
    requires k in ConfirmedKeys(After(x, steps).p)
    ensures exists i ::
      && 0 <= i < |steps| && steps[i].ProviderComplete? && steps[i].key == k
      && ProviderValue(x, After(x, steps))(k) == DeltaValue(x.env, steps[i].delta)
  {
    AlwaysSafe(x, steps);
    assert ProviderRowOk(x, k, After(x, steps).p[k]);
    BillsComeFromCompletions(x, steps, k);
  }
}
