/**
 The two-party job protocol as a state machine: a provider and a consumer with
 their job tables, any number of concurrent confirm tasks, and a network that
 loses, delays and reorders. Each step is one transaction of `JobTable` or one
 message; a step whose precondition fails changes nothing.
 */
module Protocol {
  import opened Base
  import opened Hashing
  import opened Jobs

  datatype Parties = Parties(
    provider: PeerId, consumer: PeerId, publicKey: Text, sign: Text -> Text, env: Env)

  // The Ok response to a create request, with what the request named.
  datatype Created = Created(key: JobKey, protocolId: Text, offerPayload: Text, currency: Currency, createdAtSync: int)

  // The Ok response to a get request.
  datatype Report = Report(key: JobKey, publicPayload: Option<Text>, balanceDelta: Option<Text>, completedAtSync: Option<int>)

  datatype Outcome = Waiting | Received | GaveUp

  // One spawned `confirm_job`: its request, the provider's answer once there is one, and
  // whether the consumer has processed it or got an outbound failure instead. A request may
  // still reach the provider after the consumer gave up.
  datatype Task = Task(key: JobKey, hash: Text, signature: Text, answer: Option<ConfirmResponse>, outcome: Outcome)

  datatype World = World(
    p: JobRows, c: JobRows, created: set<Created>, reports: set<Report>, tasks: seq<Task>)

  const START := World(map[], map[], {}, {}, [])

  datatype Step =
    | CreateJob(jobId: Text, protocolId: Text, requestedPayload: Text, found: Option<Found>, reply: ModuleReply,
                currency: Currency, createdAtSync: int)
    | AcceptJob(accepted: Created)
    | ProviderComplete(key: JobKey, delta: Option<Text>, privatePayload: Option<Text>, publicPayload: Text, now: int)
    | ProviderFail(key: JobKey, reason: Text, reasonClass: Option<int>, privatePayload: Option<Text>, now: int)
    | ConsumerFail(key: JobKey, reason: Text, reasonClass: Option<int>, privatePayload: Option<Text>, now: int)
    | AskJob(key: JobKey)
    | ConsumerComplete(key: JobKey, completion: Completion, now: int)
    | Spawn(key: JobKey)
    | Deliver(i: nat, now: int)
    | Receive(i: nat, now: int)
    | GiveUp(i: nat)
    | StrangerAsks(from: PeerId, request: ConfirmRequest, now: int)

  function RequestOf(x: Parties, t: Task): ConfirmRequest {
    ConfirmRequest(t.key, t.hash, x.publicKey, t.signature)
  }

  predicate Confirmable(rows: JobRows, key: JobKey) {
    key in rows && rows[key].completedAtSync.Some? ==> rows[key].publicPayload.Some?
  }

  // ------------------------------------------------------------------ the steps

  function CreatedJob(x: Parties, w: World, step: Step): World
    requires step.CreateJob?
  {
    var key := JobKey(x.provider, step.jobId);
    var answer := CreateVerdict(step.found, step.requestedPayload, step.reply, step.jobId, step.createdAtSync);
    if key !in w.p && answer.CreatedOk? then
      w.(p := w.p[key := NewRow(key, x.consumer, step.protocolId, step.found.value.rowPayload, step.currency,
                                step.createdAtSync)],
         created := w.created + {Created(JobKey(x.provider, answer.providerJobId), step.protocolId,
                                         step.requestedPayload, step.currency, answer.createdAtSync)})
    else w
  }

  function AcceptedJob(x: Parties, w: World, r: Created): World {
    if r in w.created && r.key !in w.c then
      w.(c := w.c[r.key := NewRow(r.key, x.consumer, r.protocolId, r.offerPayload, r.currency, r.createdAtSync)])
    else w
  }

  function CompletedByProvider(x: Parties, w: World, step: Step): World
    requires step.ProviderComplete?
  {
    if ProviderCompleteVerdict(x.env, w.p, step.key, step.delta).ProviderCompleted? then
      w.(p := w.p[step.key :=
        ProviderCompletedRow(w.p[step.key], step.delta, step.privatePayload, step.publicPayload, step.now)])
    else w
  }

  function CompletedByConsumer(x: Parties, w: World, key: JobKey, completion: Completion, now: int): World {
    if ConsumerCompleteVerdict(x.env, w.c, x.consumer, key, completion.delta).ConsumerCompleted? then
      w.(c := w.c[key := ConsumerCompletedRow(x.env, x.sign, w.c[key], completion, now)])
    else w
  }

  function Reported(x: Parties, w: World, key: JobKey): World {
    match GetJob(w.p, x.consumer, key)
    case GotJob(publicPayload, balanceDelta, _, completedAtSync) =>
      w.(reports := w.reports + {Report(key, publicPayload, balanceDelta, completedAtSync)})
    case NoSuchJob => w
  }

  function Spawned(x: Parties, w: World, key: JobKey): World {
    if key in w.c && Unconfirmed(w.c[key], x.consumer) && w.c[key].hash.Some? then
      w.(tasks := w.tasks + [Task(key, w.c[key].hash.value, w.c[key].consumerSignature.value, None, Waiting)])
    else w
  }

  predicate CanDeliver(w: World, i: nat) {
    i < |w.tasks| && w.tasks[i].answer.None? && Confirmable(w.p, w.tasks[i].key)
  }

  function Delivered(x: Parties, w: World, i: nat, now: int): World
    requires CanDeliver(w, i)
  {
    var t, q := w.tasks[i], RequestOf(x, w.tasks[i]);
    w.(p := AfterConfirmRequest(x.env, w.p, x.consumer, q, now),
       tasks := w.tasks[i := t.(answer := Some(ResponseTo(ConfirmVerdict(x.env, w.p, x.consumer, q))))])
  }

  predicate CanReceive(w: World, i: nat) {
    i < |w.tasks| && w.tasks[i].answer.Some? && w.tasks[i].outcome.Waiting? && w.tasks[i].key in w.c
  }

  function ReceivedAt(w: World, i: nat, now: int): World
    requires CanReceive(w, i)
  {
    var t := w.tasks[i];
    w.(c := AfterConfirmResponse(w.c, t.key, t.answer.value, now), tasks := w.tasks[i := t.(outcome := Received)])
  }

  function GivenUp(w: World, i: nat): World {
    if i < |w.tasks| && w.tasks[i].outcome.Waiting? then
      w.(tasks := w.tasks[i := w.tasks[i].(outcome := GaveUp)])
    else w
  }

  function Next(x: Parties, w: World, step: Step): World {
    match step
    case CreateJob(_, _, _, _, _, _, _) => CreatedJob(x, w, step)
    case AcceptJob(r) => AcceptedJob(x, w, r)
    case ProviderComplete(_, _, _, _, _) => CompletedByProvider(x, w, step)
    case ProviderFail(key, reason, reasonClass, privatePayload, now) =>
      if FailVerdict(w.p, key).FailedNow? then
        w.(p := w.p[key := FailedRow(w.p[key], reason, reasonClass, privatePayload, now)])
      else w
    case ConsumerFail(key, reason, reasonClass, privatePayload, now) =>
      if FailVerdict(w.c, key).FailedNow? then
        w.(c := w.c[key := FailedRow(w.c[key], reason, reasonClass, privatePayload, now)])
      else w
    case AskJob(key) => Reported(x, w, key)
    case ConsumerComplete(key, completion, now) => CompletedByConsumer(x, w, key, completion, now)
    case Spawn(key) => Spawned(x, w, key)
    case Deliver(i, now) => if CanDeliver(w, i) then Delivered(x, w, i, now) else w
    case Receive(i, now) => if CanReceive(w, i) then ReceivedAt(w, i, now) else w
    case GiveUp(i) => GivenUp(w, i)
    case StrangerAsks(from, request, now) =>
      if from != x.consumer && Confirmable(w.p, request.key) then
        w.(p := AfterConfirmRequest(x.env, w.p, from, request, now))
      else w
  }

  function After(x: Parties, steps: seq<Step>): World {
    if steps == [] then START else Next(x, After(x, steps[..|steps| - 1]), steps[|steps| - 1])
  }

  // ---------------------------------------------------------------- row invariants

  predicate SameCreationRow(a: JobRow, b: JobRow) {
    && a.providerPeerId == b.providerPeerId && a.consumerPeerId == b.consumerPeerId
    && a.protocolId == b.protocolId && a.offerPayload == b.offerPayload && a.currency == b.currency
    && a.providerJobId == b.providerJobId && a.createdAtSync == b.createdAtSync
  }

  predicate IsOpen(row: JobRow) {
    && row.reason.None? && row.completedAtLocal.None? && row.completedAtSync.None? && row.publicPayload.None?
    && row.hash.None? && row.consumerSignature.None? && row.confirmedAt.None?
  }

  predicate IsFailed(row: JobRow) {
    && row.reason.Some? && row.completedAtLocal.Some?
    && row.hash.None? && row.consumerSignature.None? && row.confirmedAt.None?
  }

  // Signed: the stored hash is the hash of the row's own fields.
  predicate IsSigned(x: Parties, row: JobRow) {
    && row.reason.None? && row.completedAtLocal.Some? && Completed(row)
    && row.hash == Some(ConsumerHash(x.env, row))
    && row.consumerSignature == Some(x.sign(ConsumerHash(x.env, row)))
    && (row.confirmedAt.Some? ==> row.confirmationError.None?)
  }

  predicate ConsumerRowOk(x: Parties, key: JobKey, row: JobRow) {
    && key == JobKey(row.providerPeerId, row.providerJobId) && row.consumerPeerId == x.consumer
    && (IsOpen(row) || IsFailed(row) || IsSigned(x, row))
  }

  predicate ProviderRowOk(x: Parties, key: JobKey, row: JobRow) {
    && key == JobKey(row.providerPeerId, row.providerJobId) && row.consumerPeerId == x.consumer
    && row.completedAtSync.Some? == row.publicPayload.Some?
    && row.completedAtLocal.Some? == row.reason.Some?
    && (row.confirmedAt.Some? ==>
          && Completed(row) && row.consumerSignature.Some? && row.confirmationError.None?
          && x.env.decodes(x.publicKey)
          && x.env.verify(x.publicKey, ProviderHash(x.env, row), row.consumerSignature.value))
  }

  ghost predicate RowsOk(x: Parties, w: World) {
    && (forall k | k in w.p :: ProviderRowOk(x, k, w.p[k]))
    && (forall k | k in w.c :: ConsumerRowOk(x, k, w.c[k]))
  }

  // What a provider row never loses: its creation fields, the hashed fields once completed,
  // and a confirmation. (It can still be marked failed: only `completed_at_local` guards that.)
  predicate ProviderAdvances(a: JobRow, b: JobRow) {
    && SameCreationRow(a, b)
    && (a.completedAtSync.Some? ==>
          b.completedAtSync == a.completedAtSync && b.publicPayload == a.publicPayload && b.balanceDelta == a.balanceDelta)
    && (a.confirmedAt.Some? ==>
          b.confirmedAt == a.confirmedAt && b.consumerSignature == a.consumerSignature
          && b.confirmationError == a.confirmationError)
  }

  // A failed consumer row is final, a signed one gains at most a confirmation or an error,
  // a confirmed one is final.
  predicate ConsumerAdvances(a: JobRow, b: JobRow) {
    && SameCreationRow(a, b)
    && (a.reason.Some? ==> b == a)
    && (a.consumerSignature.Some? ==> b == a.(confirmedAt := b.confirmedAt, confirmationError := b.confirmationError))
    && (a.confirmedAt.Some? ==> b == a)
  }

  ghost predicate Advances(a: World, b: World) {
    && (forall k | k in a.p :: k in b.p && ProviderAdvances(a.p[k], b.p[k]))
    && (forall k | k in a.c :: k in b.c && ConsumerAdvances(a.c[k], b.c[k]))
  }

  // --------------------------------------------------------------- task invariants

  predicate SaidOk(t: Task) {
    t.answer == Some(ConfirmOk)
  }

  predicate TaskOk(x: Parties, w: World, t: Task) {
    && t.key in w.c && w.c[t.key].hash == Some(t.hash) && w.c[t.key].consumerSignature == Some(t.signature)
    && (t.outcome.Received? ==> t.answer.Some?)
    && (SaidOk(t) ==>
          && t.key in w.p && w.p[t.key].confirmedAt.Some? && w.p[t.key].consumerSignature == Some(t.signature)
          && Completed(w.p[t.key]) && ProviderHash(x.env, w.p[t.key]) == t.hash)
    && (SaidOk(t) && t.outcome.Received? ==> w.c[t.key].confirmedAt.Some?)
  }

  ghost predicate TasksOk(x: Parties, w: World) {
    forall i | 0 <= i < |w.tasks| :: TaskOk(x, w, w.tasks[i])
  }

  // The provider answers Ok at most once per job.
  ghost predicate OneOk(tasks: seq<Task>) {
    forall i, j | 0 <= i < |tasks| && 0 <= j < |tasks| ::
      SaidOk(tasks[i]) && SaidOk(tasks[j]) && tasks[i].key == tasks[j].key ==> i == j
  }

  ghost predicate OkFor(tasks: seq<Task>, k: JobKey) {
    exists i :: 0 <= i < |tasks| && SaidOk(tasks[i]) && tasks[i].key == k
  }

  ghost predicate ReceivedOkFor(tasks: seq<Task>, k: JobKey) {
    exists i :: 0 <= i < |tasks| && SaidOk(tasks[i]) && tasks[i].outcome.Received? && tasks[i].key == k
  }

  // Every confirmation has its Ok.
  ghost predicate Witnessed(w: World) {
    && (forall k | k in w.p && w.p[k].confirmedAt.Some? :: OkFor(w.tasks, k))
    && (forall k | k in w.c && w.c[k].confirmedAt.Some? :: ReceivedOkFor(w.tasks, k))
  }

  ghost predicate Safe(x: Parties, w: World) {
    RowsOk(x, w) && TasksOk(x, w) && OneOk(w.tasks) && Witnessed(w)
  }

  // -------------------------------------------------- the handlers, row by row

  lemma ConfirmRequestEffect(x: Parties, p: JobRows, from: PeerId, q: ConfirmRequest, now: int)
    requires Confirmable(p, q.key)
    requires q.key in p ==> ProviderRowOk(x, q.key, p[q.key])
    requires from == x.consumer ==> q.publicKey == x.publicKey
    ensures var p' := AfterConfirmRequest(x.env, p, from, q, now);
      && p'.Keys == p.Keys
      && (forall k | k in p && k != q.key :: p'[k] == p[k])
      && (q.key in p ==> ProviderRowOk(x, q.key, p'[q.key]) && ProviderAdvances(p[q.key], p'[q.key]))
    ensures var p', v := AfterConfirmRequest(x.env, p, from, q, now), ConfirmVerdict(x.env, p, from, q);
      && (v.Confirmed? <==> ResponseTo(v).ConfirmOk?)
      && (v.Confirmed? ==>
            && from == x.consumer && q.key in p && p[q.key].confirmedAt.None? && p'[q.key].confirmedAt.Some?
            && p'[q.key].consumerSignature == Some(q.signature)
            && Completed(p'[q.key]) && ProviderHash(x.env, p'[q.key]) == q.hash)
      && (!v.Confirmed? && q.key in p ==> p'[q.key].confirmedAt == p[q.key].confirmedAt)
  {
  }

  lemma ConfirmResponseEffect(x: Parties, c: JobRows, key: JobKey, response: ConfirmResponse, now: int)
    requires key in c && ConsumerRowOk(x, key, c[key]) && c[key].consumerSignature.Some?
    ensures var c' := AfterConfirmResponse(c, key, response, now);
      && c'.Keys == c.Keys
      && (forall k | k in c && k != key :: c'[k] == c[k])
      && ConsumerRowOk(x, key, c'[key]) && ConsumerAdvances(c[key], c'[key])
      && (response.ConfirmOk? ==> c'[key].confirmedAt.Some?)
      && (!response.ConfirmOk? ==> c'[key].confirmedAt == c[key].confirmedAt)
  {
  }

  // ----------------------------------------------- steps that leave the tasks alone

  predicate TouchesTables(step: Step) {
    !(step.Spawn? || step.Deliver? || step.Receive? || step.GiveUp?)
  }

  // What a step that leaves the tasks alone may do to the tables.
  ghost predicate TablesMove(x: Parties, w: World, w': World) {
    && RowsOk(x, w') && Advances(w, w') && w'.tasks == w.tasks
    && (forall k | k in w'.p && w'.p[k].confirmedAt.Some? :: k in w.p && w.p[k].confirmedAt.Some?)
    && (forall k | k in w'.c && w'.c[k].confirmedAt.Some? :: k in w.c && w.c[k].confirmedAt.Some?)
  }

  lemma TablesStay(x: Parties, w: World, w': World)
    requires RowsOk(x, w) && w'.p == w.p && w'.c == w.c && w'.tasks == w.tasks
    ensures TablesMove(x, w, w')
  {
  }

  lemma PuttingKeepsRowsOk(x: Parties, w: World, w': World)
    requires RowsOk(x, w)
    requires forall k | k in w'.p :: (k in w.p && w'.p[k] == w.p[k]) || ProviderRowOk(x, k, w'.p[k])
    requires forall k | k in w'.c :: (k in w.c && w'.c[k] == w.c[k]) || ConsumerRowOk(x, k, w'.c[k])
    ensures RowsOk(x, w')
  {
  }

  lemma PuttingAdvances(w: World, w': World)
    requires forall k | k in w.p :: k in w'.p && (w'.p[k] == w.p[k] || ProviderAdvances(w.p[k], w'.p[k]))
    requires forall k | k in w.c :: k in w'.c && (w'.c[k] == w.c[k] || ConsumerAdvances(w.c[k], w'.c[k]))
    ensures Advances(w, w')
  {
  }

  lemma PutProviderRow(x: Parties, w: World, w': World, key: JobKey, row: JobRow)
    requires RowsOk(x, w) && w'.p == w.p[key := row] && w'.c == w.c && w'.tasks == w.tasks
    requires ProviderRowOk(x, key, row)
    requires if key in w.p then ProviderAdvances(w.p[key], row) && row.confirmedAt == w.p[key].confirmedAt
             else row.confirmedAt.None?
    ensures TablesMove(x, w, w')
  {
    PuttingKeepsRowsOk(x, w, w');
    PuttingAdvances(w, w');
  }

  lemma PutConsumerRow(x: Parties, w: World, w': World, key: JobKey, row: JobRow)
    requires RowsOk(x, w) && w'.c == w.c[key := row] && w'.p == w.p && w'.tasks == w.tasks
    requires ConsumerRowOk(x, key, row)
    requires if key in w.c then ConsumerAdvances(w.c[key], row) && row.confirmedAt == w.c[key].confirmedAt
             else row.confirmedAt.None?
    ensures TablesMove(x, w, w')
  {
    PuttingKeepsRowsOk(x, w, w');
    PuttingAdvances(w, w');
  }

  lemma ProviderTableStep(x: Parties, w: World, step: Step)
    requires RowsOk(x, w)
    requires step.CreateJob? || step.ProviderComplete? || step.ProviderFail?
    ensures TablesMove(x, w, Next(x, w, step))
  {
    var w' := Next(x, w, step);
    if w'.p == w.p {
      TablesStay(x, w, w');
    } else {
      var key := match step
        case CreateJob(jobId, _, _, _, _, _, _) => JobKey(x.provider, jobId)
        case ProviderComplete(key, _, _, _, _) => key
        case ProviderFail(key, _, _, _, _) => key;
      PutProviderRow(x, w, w', key, w'.p[key]);
    }
  }

  // Another peer asking to confirm one of the consumer's jobs is told it does not exist.
  lemma StrangersChangeNothing(x: Parties, w: World, from: PeerId, q: ConfirmRequest, now: int)
    requires RowsOk(x, w) && from != x.consumer && Confirmable(w.p, q.key)
    ensures AfterConfirmRequest(x.env, w.p, from, q, now) == w.p
    ensures ResponseTo(ConfirmVerdict(x.env, w.p, from, q)).JobNotFound?
  {
  }

  lemma ConsumerTableStep(x: Parties, w: World, step: Step)
    requires RowsOk(x, w)
    requires step.AcceptJob? || step.ConsumerFail? || step.ConsumerComplete?
    ensures TablesMove(x, w, Next(x, w, step))
  {
    var w' := Next(x, w, step);
    if w'.c == w.c {
      TablesStay(x, w, w');
    } else {
      var key := match step
        case AcceptJob(r) => r.key
        case ConsumerFail(key, _, _, _, _) => key
        case ConsumerComplete(key, _, _) => key;
      PutConsumerRow(x, w, w', key, w'.c[key]);
    }
  }

  lemma TableStepRows(x: Parties, w: World, step: Step)
    requires TouchesTables(step) && RowsOk(x, w)
    ensures TablesMove(x, w, Next(x, w, step))
  {
    if step.AskJob? || step.StrangerAsks? {
      if step.StrangerAsks? && step.from != x.consumer && Confirmable(w.p, step.request.key) {
        StrangersChangeNothing(x, w, step.from, step.request, step.now);
      }
      TablesStay(x, w, Next(x, w, step));
    } else if step.AcceptJob? || step.ConsumerFail? || step.ConsumerComplete? {
      ConsumerTableStep(x, w, step);
    } else {
      ProviderTableStep(x, w, step);
    }
  }

  lemma AdvancingKeepsTasks(x: Parties, a: World, b: World, t: Task)
    requires Advances(a, b) && TaskOk(x, a, t)
    ensures TaskOk(x, b, t)
  {
  }

  lemma TableStepKeepsSafe(x: Parties, w: World, step: Step)
    requires TouchesTables(step) && Safe(x, w)
    ensures Safe(x, Next(x, w, step)) && Advances(w, Next(x, w, step))
  {
    var w' := Next(x, w, step);
    TableStepRows(x, w, step);
    forall i | 0 <= i < |w'.tasks|
      ensures TaskOk(x, w', w'.tasks[i])
    {
      AdvancingKeepsTasks(x, w, w', w.tasks[i]);
    }
  }

  // ------------------------------------------------------- steps on the tasks

  lemma SpawnKeepsSafe(x: Parties, w: World, key: JobKey)
    requires Safe(x, w)
    ensures Safe(x, Spawned(x, w, key)) && Advances(w, Spawned(x, w, key))
  {
    var w' := Spawned(x, w, key);
    if w' != w {
      var t := w'.tasks[|w.tasks|];
      assert w'.tasks == w.tasks + [t];
      OksStay(w.tasks, t);
      forall i | 0 <= i < |w'.tasks|
        ensures TaskOk(x, w', w'.tasks[i])
      {
        assert i < |w.tasks| ==> TaskOk(x, w, w.tasks[i]);
      }
    }
  }

  lemma OksStay(tasks: seq<Task>, t: Task)
    requires !SaidOk(t) && OneOk(tasks)
    ensures OneOk(tasks + [t])
    ensures forall k | OkFor(tasks, k) :: OkFor(tasks + [t], k)
    ensures forall k | ReceivedOkFor(tasks, k) :: ReceivedOkFor(tasks + [t], k)
  {
    forall k | OkFor(tasks, k)
      ensures OkFor(tasks + [t], k)
    {
      var i :| 0 <= i < |tasks| && SaidOk(tasks[i]) && tasks[i].key == k;
      assert (tasks + [t])[i] == tasks[i];
    }
    forall k | ReceivedOkFor(tasks, k)
      ensures ReceivedOkFor(tasks + [t], k)
    {
      var i :| 0 <= i < |tasks| && SaidOk(tasks[i]) && tasks[i].outcome.Received? && tasks[i].key == k;
      assert (tasks + [t])[i] == tasks[i];
    }
  }

  // Replacing task i by one that has lost no Ok keeps every witness.
  lemma WitnessesStay(tasks: seq<Task>, i: nat, t: Task)
    requires i < |tasks| && t.key == tasks[i].key
    requires SaidOk(tasks[i]) ==> SaidOk(t)
    requires tasks[i].outcome.Received? ==> t.outcome.Received?
    ensures forall k | OkFor(tasks, k) :: OkFor(tasks[i := t], k)
    ensures forall k | ReceivedOkFor(tasks, k) :: ReceivedOkFor(tasks[i := t], k)
  {
    forall k | OkFor(tasks, k)
      ensures OkFor(tasks[i := t], k)
    {
      var j :| 0 <= j < |tasks| && SaidOk(tasks[j]) && tasks[j].key == k;
      assert SaidOk(tasks[i := t][j]);
    }
    forall k | ReceivedOkFor(tasks, k)
      ensures ReceivedOkFor(tasks[i := t], k)
    {
      var j :| 0 <= j < |tasks| && SaidOk(tasks[j]) && tasks[j].outcome.Received? && tasks[j].key == k;
      assert SaidOk(tasks[i := t][j]) && tasks[i := t][j].outcome.Received?;
    }
  }

  lemma GiveUpKeepsSafe(x: Parties, w: World, i: nat)
    requires Safe(x, w)
    ensures Safe(x, GivenUp(w, i)) && Advances(w, GivenUp(w, i))
  {
    var w' := GivenUp(w, i);
    if i < |w.tasks| && w.tasks[i].outcome.Waiting? {
      WitnessesStay(w.tasks, i, w'.tasks[i]);
      AdvancesReflexive(w);
      forall j | 0 <= j < |w'.tasks|
        ensures TaskOk(x, w', w'.tasks[j])
      {
        AdvancingKeepsTasks(x, w, w', w.tasks[j]);
      }
    }
  }

  lemma DeliverRows(x: Parties, w: World, i: nat, now: int)
    requires RowsOk(x, w) && CanDeliver(w, i)
    ensures RowsOk(x, Delivered(x, w, i, now)) && Advances(w, Delivered(x, w, i, now))
  {
    ConfirmRequestEffect(x, w.p, x.consumer, RequestOf(x, w.tasks[i]), now);
  }

  lemma DeliverTasks(x: Parties, w: World, i: nat, now: int)
    requires RowsOk(x, w) && TasksOk(x, w) && CanDeliver(w, i)
    requires Advances(w, Delivered(x, w, i, now))
    ensures TasksOk(x, Delivered(x, w, i, now))
    ensures SaidOk(Delivered(x, w, i, now).tasks[i]) ==>
      forall j | 0 <= j < |w.tasks| && w.tasks[j].key == w.tasks[i].key :: !SaidOk(w.tasks[j])
  {
    var w' := Delivered(x, w, i, now);
    ConfirmRequestEffect(x, w.p, x.consumer, RequestOf(x, w.tasks[i]), now);
    forall j | 0 <= j < |w.tasks|
      ensures TaskOk(x, w, w.tasks[j]) && TaskOk(x, w', w.tasks[j])
    {
      AdvancingKeepsTasks(x, w, w', w.tasks[j]);
    }
  }

  lemma DeliverWitnesses(x: Parties, w: World, i: nat, now: int)
    requires RowsOk(x, w) && Witnessed(w) && CanDeliver(w, i)
    ensures Witnessed(Delivered(x, w, i, now))
  {
    var w' := Delivered(x, w, i, now);
    var k := w.tasks[i].key;
    ConfirmRequestEffect(x, w.p, x.consumer, RequestOf(x, w.tasks[i]), now);
    WitnessesStay(w.tasks, i, w'.tasks[i]);
    if k in w.p && w.p[k].confirmedAt.None? && w'.p[k].confirmedAt.Some? {
      assert SaidOk(w'.tasks[i]) && w'.tasks[i].key == k;
    }
  }

  lemma DeliverKeepsSafe(x: Parties, w: World, i: nat, now: int)
    requires Safe(x, w) && CanDeliver(w, i)
    ensures Safe(x, Delivered(x, w, i, now)) && Advances(w, Delivered(x, w, i, now))
  {
    DeliverRows(x, w, i, now);
    DeliverTasks(x, w, i, now);
    DeliverWitnesses(x, w, i, now);
  }

  lemma ReceiveRows(x: Parties, w: World, i: nat, now: int)
    requires RowsOk(x, w) && TasksOk(x, w) && CanReceive(w, i)
    ensures RowsOk(x, ReceivedAt(w, i, now)) && Advances(w, ReceivedAt(w, i, now))
  {
    assert TaskOk(x, w, w.tasks[i]);
    ConfirmResponseEffect(x, w.c, w.tasks[i].key, w.tasks[i].answer.value, now);
  }

  lemma ReceiveTasks(x: Parties, w: World, i: nat, now: int)
    requires RowsOk(x, w) && TasksOk(x, w) && CanReceive(w, i)
    requires Advances(w, ReceivedAt(w, i, now))
    ensures TasksOk(x, ReceivedAt(w, i, now))
  {
    var w' := ReceivedAt(w, i, now);
    assert TaskOk(x, w, w.tasks[i]);
    ConfirmResponseEffect(x, w.c, w.tasks[i].key, w.tasks[i].answer.value, now);
    forall j | 0 <= j < |w.tasks|
      ensures TaskOk(x, w', w.tasks[j])
    {
      AdvancingKeepsTasks(x, w, w', w.tasks[j]);
    }
  }

  lemma ReceiveWitnesses(x: Parties, w: World, i: nat, now: int)
    requires RowsOk(x, w) && TasksOk(x, w) && Witnessed(w) && CanReceive(w, i)
    ensures Witnessed(ReceivedAt(w, i, now))
  {
    var w' := ReceivedAt(w, i, now);
    var k := w.tasks[i].key;
    assert TaskOk(x, w, w.tasks[i]);
    ConfirmResponseEffect(x, w.c, k, w.tasks[i].answer.value, now);
    WitnessesStay(w.tasks, i, w'.tasks[i]);
    if w.c[k].confirmedAt.None? && w'.c[k].confirmedAt.Some? {
      assert SaidOk(w'.tasks[i]) && w'.tasks[i].outcome.Received? && w'.tasks[i].key == k;
    }
  }

  lemma ReceiveKeepsSafe(x: Parties, w: World, i: nat, now: int)
    requires Safe(x, w) && CanReceive(w, i)
    ensures Safe(x, ReceivedAt(w, i, now)) && Advances(w, ReceivedAt(w, i, now))
  {
    ReceiveRows(x, w, i, now);
    ReceiveTasks(x, w, i, now);
    ReceiveWitnesses(x, w, i, now);
  }

  // ------------------------------------------------------------ safety over whole runs

  lemma {:induction false} StepKeepsSafe(x: Parties, w: World, step: Step)
    requires Safe(x, w)
    ensures Safe(x, Next(x, w, step)) && Advances(w, Next(x, w, step))
  {
    match step
    case Spawn(key) => SpawnKeepsSafe(x, w, key);
    case Deliver(i, now) =>
      if CanDeliver(w, i) {
        DeliverKeepsSafe(x, w, i, now);
      } else {
        AdvancesReflexive(w);
      }
    case Receive(i, now) =>
      if CanReceive(w, i) {
        ReceiveKeepsSafe(x, w, i, now);
      } else {
        AdvancesReflexive(w);
      }
    case GiveUp(i) => GiveUpKeepsSafe(x, w, i);
    case _ => TableStepKeepsSafe(x, w, step);
  }

  lemma AdvancesReflexive(w: World)
    ensures Advances(w, w)
  {
  }

  lemma {:induction false} AlwaysSafe(x: Parties, steps: seq<Step>)
    ensures Safe(x, After(x, steps))
  {
    if steps != [] {
      AlwaysSafe(x, steps[..|steps| - 1]);
      StepKeepsSafe(x, After(x, steps[..|steps| - 1]), steps[|steps| - 1]);
    }
  }

  lemma AdvancesTransitive(a: World, b: World, c: World)
    requires Advances(a, b) && Advances(b, c)
    ensures Advances(a, c)
  {
  }

  // Freezing: nothing that happens later changes what a completed provider row hashes to, undoes
  // a confirmation on either side, or reopens a failed or signed consumer row.

  lemma {:induction false} RunsAdvance(x: Parties, steps: seq<Step>, n: nat)
    requires n <= |steps|
    ensures Advances(After(x, steps[..n]), After(x, steps))
    decreases |steps|
  {
    if n == |steps| {
      assert steps[..n] == steps;
    } else {
      var m := |steps| - 1;
      assert steps[..m][..n] == steps[..n];
      RunsAdvance(x, steps[..m], n);
      AlwaysSafe(x, steps[..m]);
      StepKeepsSafe(x, After(x, steps[..m]), steps[m]);
      AdvancesTransitive(After(x, steps[..n]), After(x, steps[..m]), After(x, steps));
    }
  }

  // A job confirmed on the consumer is confirmed on the provider, under the same hash, with a
  // signature that verifies, and through exactly one Ok.
  lemma {:induction false} ConfirmationIsMutual(x: Parties, steps: seq<Step>, k: JobKey)
    ensures var w := After(x, steps);
      k in w.c && w.c[k].confirmedAt.Some? ==>
        && k in w.p && w.p[k].confirmedAt.Some? && Completed(w.p[k])
        && w.c[k].hash == Some(ProviderHash(x.env, w.p[k]))
        && w.c[k].consumerSignature == w.p[k].consumerSignature
        && w.p[k].consumerSignature.Some?
        && x.env.verify(x.publicKey, ProviderHash(x.env, w.p[k]), w.p[k].consumerSignature.value)
    ensures OneOk(After(x, steps).tasks)
  {
    AlwaysSafe(x, steps);
  }

  // A consumer row is always exactly one of open, failed and signed; only signed rows are
  // confirmed; and on neither side does a confirmed row carry an error.
  lemma {:induction false} RowsHaveOneState(x: Parties, steps: seq<Step>, k: JobKey)
    ensures var w := After(x, steps);
      && (k in w.c ==>
            var row := w.c[k];
            && (IsOpen(row) || IsFailed(row) || IsSigned(x, row))
            && !(IsOpen(row) && IsFailed(row)) && !(IsOpen(row) && IsSigned(x, row)) && !(IsFailed(row) && IsSigned(x, row))
            && (row.confirmedAt.Some? ==> IsSigned(x, row) && row.confirmationError.None?))
      && (k in w.p && w.p[k].confirmedAt.Some? ==> w.p[k].confirmationError.None?)
  {
    AlwaysSafe(x, steps);
  }

  // `fail_job` looks at `completed_at_local`, which completing sets on the consumer only. So the
  // consumer can fail exactly its open jobs, and the provider any job it has not failed yet,
  // completed and confirmed ones included.
  lemma {:induction false} OnlyConsumersGuardFailure(x: Parties, steps: seq<Step>, k: JobKey)
    ensures var w := After(x, steps);
      && (k in w.c ==> (FailVerdict(w.c, k).FailedNow? <==> IsOpen(w.c[k])))
      && (k in w.p ==> (FailVerdict(w.p, k).FailedNow? <==> w.p[k].reason.None?))
  {
    AlwaysSafe(x, steps);
  }

  // ------------------------------------------------------------- what tasks are told

  // Delivering request i now puts this answer on its way, and confirms the job exactly if it is Ok.
  ghost predicate IsAnswered(x: Parties, w: World, i: nat, now: int, answer: ConfirmResponse) {
    var w' := Next(x, w, Deliver(i, now));
    && i < |w.tasks| && i < |w'.tasks| && w'.tasks[i] == w.tasks[i].(answer := Some(answer))
    && (answer.ConfirmOk? ==>
          && w.tasks[i].key in w.p && w.p[w.tasks[i].key].confirmedAt.None?
          && w.tasks[i].key in w'.p && w'.p[w.tasks[i].key].confirmedAt == Some(now))
    && (!answer.ConfirmOk? ==>
          forall k | k in w.p :: k in w'.p && w'.p[k].confirmedAt == w.p[k].confirmedAt)
  }

  // In every run: a task learns of its job what the provider's row says at that moment.
  lemma {:induction false} DeliveredAnswers(x: Parties, steps: seq<Step>, i: nat, now: int)
    requires i < |After(x, steps).tasks| && After(x, steps).tasks[i].answer.None?
    ensures var w := After(x, steps); var t := w.tasks[i];
      && Confirmable(w.p, t.key)
      && exists answer ::
           && IsAnswered(x, w, i, now, answer)
           && (answer == JobNotFound <==> t.key !in w.p)
           && (t.key in w.p ==> AnswersOwner(x.env, w.p[t.key], RequestOf(x, t), answer))
  {
    var w := After(x, steps);
    var t := w.tasks[i];
    AlwaysSafe(x, steps);
    assert t.key in w.p ==> ProviderRowOk(x, t.key, w.p[t.key]);
    AnswerTold(x, w, i, now);
  }

  lemma AnswerTold(x: Parties, w: World, i: nat, now: int)
    requires CanDeliver(w, i)
    requires w.tasks[i].key in w.p ==> ProviderRowOk(x, w.tasks[i].key, w.p[w.tasks[i].key])
    ensures var answer := ResponseTo(ConfirmVerdict(x.env, w.p, x.consumer, RequestOf(x, w.tasks[i])));
      && IsAnswered(x, w, i, now, answer)
      && (answer == JobNotFound <==> w.tasks[i].key !in w.p)
      && (w.tasks[i].key in w.p ==> AnswersOwner(x.env, w.p[w.tasks[i].key], RequestOf(x, w.tasks[i]), answer))
  {
    VerdictsAreAnswered(x.env, w.p, x.consumer, RequestOf(x, w.tasks[i]));
    DeliveryIsAnswered(x, w, i, now);
  }

  lemma DeliveryIsAnswered(x: Parties, w: World, i: nat, now: int)
    requires CanDeliver(w, i)
    requires w.tasks[i].key in w.p ==> ProviderRowOk(x, w.tasks[i].key, w.p[w.tasks[i].key])
    ensures IsAnswered(x, w, i, now, ResponseTo(ConfirmVerdict(x.env, w.p, x.consumer, RequestOf(x, w.tasks[i]))))
  {
    ConfirmRequestEffect(x, w.p, x.consumer, RequestOf(x, w.tasks[i]), now);
    assert Next(x, w, Deliver(i, now)) == Delivered(x, w, i, now);
  }

  // ------------------------------------------------------------ where rows come from

  predicate CreatedBy(x: Parties, step: Step, k: JobKey, row: JobRow) {
    && step.CreateJob? && k == JobKey(x.provider, step.jobId)
    && step.found.Some? && step.found.value.payload == step.requestedPayload && step.reply.ModuleOk?
    && row.consumerPeerId == x.consumer && row.protocolId == step.protocolId
    && row.offerPayload == step.found.value.rowPayload && row.currency == step.currency
    && row.createdAtSync == step.createdAtSync
  }

  predicate CompletedBy(step: Step, k: JobKey, row: JobRow) {
    && step.ProviderComplete? && step.key == k
    && row.balanceDelta == step.delta && row.publicPayload == Some(step.publicPayload)
    && row.completedAtSync == Some(step.now)
  }

  predicate SignedBy(x: Parties, step: Step, k: JobKey, row: JobRow) {
    && step.ConsumerComplete? && step.key == k
    && row.balanceDelta == (if step.completion.delta.Some? then Some(Hex(step.completion.delta.value)) else None)
    && row.publicPayload == Some(step.completion.publicPayload)
    && row.completedAtSync == Some(step.completion.completedAtSync)
  }

  lemma NewRowsAreCreated(x: Parties, w: World, step: Step, k: JobKey)
    requires k in Next(x, w, step).p && k !in w.p
    ensures CreatedBy(x, step, k, Next(x, w, step).p[k])
  {
  }

  lemma NewlyCompletedRows(x: Parties, w: World, step: Step, k: JobKey)
    requires k in Next(x, w, step).p && Next(x, w, step).p[k].completedAtSync.Some?
    requires k in w.p ==> w.p[k].completedAtSync.None?
    ensures CompletedBy(step, k, Next(x, w, step).p[k])
  {
  }

  lemma NewlySignedRows(x: Parties, w: World, step: Step, k: JobKey)
    requires k in Next(x, w, step).c && Next(x, w, step).c[k].consumerSignature.Some?
    requires k in w.c ==> w.c[k].consumerSignature.None?
    ensures SignedBy(x, step, k, Next(x, w, step).c[k])
  {
  }

  // In every run each provider row carries what one create request named and was answered.
  lemma {:induction false} RowsComeFromRequests(x: Parties, steps: seq<Step>, k: JobKey)
    requires k in After(x, steps).p
    ensures exists i :: 0 <= i < |steps| && CreatedBy(x, steps[i], k, After(x, steps).p[k])
  {
    var n := |steps| - 1;
    var w, w' := After(x, steps[..n]), After(x, steps);
    if k in w.p {
      RowsComeFromRequests(x, steps[..n], k);
      LastStepAdvances(x, steps);
      var i :| 0 <= i < n && CreatedBy(x, steps[..n][i], k, w.p[k]);
      assert ProviderAdvances(w.p[k], w'.p[k]) && CreatedBy(x, steps[i], k, w'.p[k]);
    } else {
      NewRowsAreCreated(x, w, steps[n], k);
    }
  }

  // A completed one is billed what one completion by the module said, to the letter.
  lemma {:induction false} BillsComeFromCompletions(x: Parties, steps: seq<Step>, k: JobKey)
    requires k in After(x, steps).p && After(x, steps).p[k].completedAtSync.Some?
    ensures exists i :: 0 <= i < |steps| && CompletedBy(steps[i], k, After(x, steps).p[k])
  {
    var n := |steps| - 1;
    var w, w' := After(x, steps[..n]), After(x, steps);
    if k in w.p && w.p[k].completedAtSync.Some? {
      BillsComeFromCompletions(x, steps[..n], k);
      LastStepAdvances(x, steps);
      var i :| 0 <= i < n && CompletedBy(steps[..n][i], k, w.p[k]);
      assert ProviderAdvances(w.p[k], w'.p[k]) && CompletedBy(steps[i], k, w'.p[k]);
    } else {
      NewlyCompletedRows(x, w, steps[n], k);
    }
  }

  // A signed consumer row carries what one completion by the consumer said.
  lemma {:induction false} SignaturesComeFromCompletions(x: Parties, steps: seq<Step>, k: JobKey)
    requires k in After(x, steps).c && After(x, steps).c[k].consumerSignature.Some?
    ensures exists i :: 0 <= i < |steps| && SignedBy(x, steps[i], k, After(x, steps).c[k])
  {
    var n := |steps| - 1;
    var w, w' := After(x, steps[..n]), After(x, steps);
    if k in w.c && w.c[k].consumerSignature.Some? {
      SignaturesComeFromCompletions(x, steps[..n], k);
      LastStepAdvances(x, steps);
      var i :| 0 <= i < n && SignedBy(x, steps[..n][i], k, w.c[k]);
      assert ConsumerAdvances(w.c[k], w'.c[k]) && SignedBy(x, steps[i], k, w'.c[k]);
    } else {
      NewlySignedRows(x, w, steps[n], k);
    }
  }

  lemma LastStepAdvances(x: Parties, steps: seq<Step>)
    requires steps != []
    ensures Advances(After(x, steps[..|steps| - 1]), After(x, steps))
  {
    AlwaysSafe(x, steps[..|steps| - 1]);
    StepKeepsSafe(x, After(x, steps[..|steps| - 1]), steps[|steps| - 1]);
  }
}
