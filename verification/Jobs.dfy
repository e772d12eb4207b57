/**
 The `service_jobs` table and the transactions on it. A job row carries the
 columns its query joins in from `offer_snapshots`; those never change.
 */
module Jobs {
  import opened Base
  import opened Hashing

  datatype Currency = Polygon

  // "POL"
  function Code(c: Currency): Text {
    match c
    case Polygon => [80, 79, 76]
  }

  lemma CurrencyIsPol(c: Currency)
    ensures |Code(c)| == 3 && forall i | 0 <= i < 3 :: Code(c)[i] as int == "POL"[i] as int
  {
  }

  datatype ConfirmResponse =
    | ConfirmOk
    | JobNotFound
    | AlreadyConfirmed
    | AlreadyFailed
    | NotCompletedYet
    | InvalidPublicKey
    | HashMismatch(expected: Text)
    | InvalidSignature
    | UnexpectedResponse

  // The source stores these formatted as text.
  datatype ConfirmationError =
    | GotWrongHash(got: Text, expected: Text)
    | SignatureVerificationFailed
    | ProviderSaid(response: ConfirmResponse)

  datatype JobRow = JobRow(
    providerPeerId: PeerId,
    consumerPeerId: PeerId,
    protocolId: Text,
    offerPayload: Text,
    currency: Currency,
    providerJobId: Text,
    createdAtSync: int,
    privatePayload: Option<Text>,
    reason: Option<Text>,
    reasonClass: Option<int>,
    completedAtLocal: Option<int>,
    completedAtSync: Option<int>,
    publicPayload: Option<Text>,
    balanceDelta: Option<Text>,
    hash: Option<Text>,
    consumerSignature: Option<Text>,
    confirmedAt: Option<int>,
    confirmationError: Option<ConfirmationError>)

  datatype JobKey = JobKey(providerPeerId: PeerId, providerJobId: Text)

  type JobRows = map<JobKey, JobRow>

  // What the program takes from outside: a digest, key decoding, signature verification, and
  // the parser that decides whether a delta is a number of the currency.
  datatype Env = Env(
    digest: Text -> Text,
    decodes: Text -> bool,
    verify: (Text, Text, Text) -> bool,
    parse: Text -> Option<nat>)

  function ValidDelta(env: Env, delta: Option<Text>): bool {
    delta.Some? ==> env.parse(delta.value).Some?
  }

  function NewRow(key: JobKey, consumer: PeerId, protocolId: Text, offerPayload: Text, currency: Currency,
                  createdAtSync: int): JobRow {
    JobRow(key.providerPeerId, consumer, protocolId, offerPayload, currency, key.providerJobId, createdAtSync,
           None, None, None, None, None, None, None, None, None, None, None)
  }

  // Completion stores the public payload with the time, on either side.
  ghost predicate WellFormed(rows: JobRows) {
    forall k | k in rows ::
      && rows[k].completedAtSync.Some? == rows[k].publicPayload.Some?
      && k == JobKey(rows[k].providerPeerId, rows[k].providerJobId)
  }

  // ---------------------------------------------------------------- hashed fields

  function Payload(row: JobRow, publicPayload: Text, completedAtSync: int, delta: Option<Text>): JobHashingPayload {
    JobHashingPayload(row.consumerPeerId, row.providerPeerId, row.protocolId, row.offerPayload, Code(row.currency),
                      row.providerJobId, row.createdAtSync, publicPayload, completedAtSync, delta)
  }

  predicate Completed(row: JobRow) {
    row.completedAtSync.Some? && row.publicPayload.Some?
  }

  // The provider keeps the delta as given and encodes it to hash; the consumer stores it encoded.
  function ProviderPayload(row: JobRow): JobHashingPayload
    requires Completed(row)
  {
    Payload(row, row.publicPayload.value, row.completedAtSync.value, EncodedDelta(row.balanceDelta))
  }

  function ConsumerPayload(row: JobRow): JobHashingPayload
    requires Completed(row)
  {
    Payload(row, row.publicPayload.value, row.completedAtSync.value, row.balanceDelta)
  }

  function ProviderHash(env: Env, row: JobRow): Text
    requires Completed(row)
  {
    env.digest(Preimage(ProviderPayload(row)))
  }

  function ConsumerHash(env: Env, row: JobRow): Text
    requires Completed(row)
  {
    env.digest(Preimage(ConsumerPayload(row)))
  }

  // ------------------------------------------------------------ create and lookup

  datatype CreateJobResponse =
    | CreatedOk(providerJobId: Text, createdAtSync: int)
    | OfferNotFound
    | OfferPayloadMismatch
    | Busy
    | InvalidJobArgs

  datatype ModuleReply = ModuleOk | ModuleBusy | ModuleInvalidArgs | ModuleUnexpected

  // The provided offer as found in the registry, with the payload of the row it names.
  datatype Found = Found(payload: Text, rowPayload: Text)

  function CreateVerdict(found: Option<Found>, requestedPayload: Text, reply: ModuleReply,
                         jobId: Text, createdAtSync: int): CreateJobResponse {
    if found.None? then OfferNotFound
    else if found.value.payload != requestedPayload then OfferPayloadMismatch
    else match reply
      case ModuleOk => CreatedOk(jobId, createdAtSync)
      case ModuleBusy => Busy
      case ModuleInvalidArgs => InvalidJobArgs
      case ModuleUnexpected => Busy
  }

  datatype GetJobResponse =
    | GotJob(publicPayload: Option<Text>, balanceDelta: Option<Text>, createdAtSync: int, completedAtSync: Option<int>)
    | NoSuchJob

  function GetJob(rows: JobRows, from: PeerId, key: JobKey): GetJobResponse {
    if key in rows && rows[key].consumerPeerId == from
    then GotJob(rows[key].publicPayload, rows[key].balanceDelta, rows[key].createdAtSync, rows[key].completedAtSync)
    else NoSuchJob
  }

  // A job is reported to its consumer, column by column, and to nobody else.
  lemma JobsAreReportedToTheirConsumer(rows: JobRows, from: PeerId, key: JobKey)
    ensures GetJob(rows, from, key) == NoSuchJob <==> key !in rows || rows[key].consumerPeerId != from
    ensures key in rows && rows[key].consumerPeerId == from ==>
      var told, row := GetJob(rows, from, key), rows[key];
      && told.publicPayload == row.publicPayload && told.balanceDelta == row.balanceDelta
      && told.createdAtSync == row.createdAtSync && told.completedAtSync == row.completedAtSync
  {
  }

  // -------------------------------------------------------------- provider side

  datatype ProviderCompleteResult =
    | ProviderCompleted
    | ProviderJobNotFound
    | ProviderAlreadyFailed(reason: Text, reasonClass: Option<int>)
    | ProviderAlreadyCompleted(completedAtSync: int)
    | ProviderInvalidDelta

  function ProviderCompleteVerdict(env: Env, rows: JobRows, key: JobKey, delta: Option<Text>): ProviderCompleteResult {
    if key !in rows then ProviderJobNotFound
    else if rows[key].reason.Some? then ProviderAlreadyFailed(rows[key].reason.value, rows[key].reasonClass)
    else if rows[key].completedAtSync.Some? then ProviderAlreadyCompleted(rows[key].completedAtSync.value)
    else if !ValidDelta(env, delta) then ProviderInvalidDelta
    else ProviderCompleted
  }

  function ProviderCompletedRow(row: JobRow, delta: Option<Text>, privatePayload: Option<Text>, publicPayload: Text,
                                now: int): JobRow {
    row.(balanceDelta := delta, publicPayload := Some(publicPayload),
         privatePayload := if privatePayload.Some? then privatePayload else row.privatePayload,
         completedAtSync := Some(now))
  }

  datatype ConfirmRequest = ConfirmRequest(key: JobKey, hash: Text, publicKey: Text, signature: Text)

  datatype ProviderConfirmResult =
    | Confirmed
    | ConfirmJobNotFound
    | ConsumerPeerIdMismatch
    | ConfirmAlreadyConfirmed
    | ConfirmNotCompletedYet
    | ConfirmAlreadyFailed
    | ConfirmHashMismatch(expected: Text)
    | ConfirmBadKey
    | ConfirmBadSignature

  function ConfirmVerdict(env: Env, rows: JobRows, from: PeerId, q: ConfirmRequest): ProviderConfirmResult
    requires q.key in rows && rows[q.key].completedAtSync.Some? ==> rows[q.key].publicPayload.Some?
  {
    if q.key !in rows then ConfirmJobNotFound
    else
      var row := rows[q.key];
      if row.consumerPeerId != from then ConsumerPeerIdMismatch
      else if row.confirmedAt.Some? then ConfirmAlreadyConfirmed
      else if row.completedAtSync.None? then ConfirmNotCompletedYet
      else if row.reason.Some? then ConfirmAlreadyFailed
      else if q.hash != ProviderHash(env, row) then ConfirmHashMismatch(ProviderHash(env, row))
      else if !env.decodes(q.publicKey) then ConfirmBadKey
      else if !env.verify(q.publicKey, q.hash, q.signature) then ConfirmBadSignature
      else Confirmed
  }

  function ResponseTo(v: ProviderConfirmResult): ConfirmResponse {
    match v
    case Confirmed => ConfirmOk
    case ConfirmJobNotFound => JobNotFound
    case ConsumerPeerIdMismatch => JobNotFound
    case ConfirmAlreadyConfirmed => AlreadyConfirmed
    case ConfirmNotCompletedYet => NotCompletedYet
    case ConfirmAlreadyFailed => AlreadyFailed
    case ConfirmHashMismatch(expected) => HashMismatch(expected)
    case ConfirmBadKey => InvalidPublicKey
    case ConfirmBadSignature => InvalidSignature
  }

  // The answer to a confirm request, read off the row: what the consumer is told and when.
  ghost predicate AnswersRequest(env: Env, rows: JobRows, from: PeerId, q: ConfirmRequest, answer: ConfirmResponse)
    requires q.key in rows && rows[q.key].completedAtSync.Some? ==> rows[q.key].publicPayload.Some?
  {
    && (answer.JobNotFound? <==> q.key !in rows || rows[q.key].consumerPeerId != from)
    && (q.key in rows && rows[q.key].consumerPeerId == from ==> AnswersOwner(env, rows[q.key], q, answer))
  }

  ghost predicate AnswersOwner(env: Env, row: JobRow, q: ConfirmRequest, answer: ConfirmResponse)
    requires row.completedAtSync.Some? ==> row.publicPayload.Some?
  {
    && (answer == AlreadyConfirmed <==> row.confirmedAt.Some?)
    && (answer == NotCompletedYet <==> row.confirmedAt.None? && row.completedAtSync.None?)
    && (answer == AlreadyFailed <==> row.confirmedAt.None? && row.completedAtSync.Some? && row.reason.Some?)
    && (row.confirmedAt.None? && row.completedAtSync.Some? && row.reason.None? ==>
          var expected := ProviderHash(env, row);
          && (answer == HashMismatch(expected) <==> q.hash != expected)
          && (answer == InvalidPublicKey <==> q.hash == expected && !env.decodes(q.publicKey))
          && (answer == InvalidSignature <==>
                q.hash == expected && env.decodes(q.publicKey) && !env.verify(q.publicKey, q.hash, q.signature))
          && (answer == ConfirmOk <==>
                q.hash == expected && env.decodes(q.publicKey) && env.verify(q.publicKey, q.hash, q.signature)))
  }

  lemma VerdictsAreAnswered(env: Env, rows: JobRows, from: PeerId, q: ConfirmRequest)
    requires q.key in rows && rows[q.key].completedAtSync.Some? ==> rows[q.key].publicPayload.Some?
    ensures AnswersRequest(env, rows, from, q, ResponseTo(ConfirmVerdict(env, rows, from, q)))
  {
  }

  // The table after the whole request handler, the recorded error included.
  function AfterConfirmRequest(env: Env, rows: JobRows, from: PeerId, q: ConfirmRequest, now: int): JobRows
    requires q.key in rows && rows[q.key].completedAtSync.Some? ==> rows[q.key].publicPayload.Some?
  {
    match ConfirmVerdict(env, rows, from, q)
    case Confirmed =>
      rows[q.key := rows[q.key].(consumerSignature := Some(q.signature), confirmedAt := Some(now), confirmationError := None)]
    case ConfirmHashMismatch(expected) =>
      rows[q.key := rows[q.key].(confirmationError := Some(GotWrongHash(q.hash, expected)))]
    case ConfirmBadSignature =>
      rows[q.key := rows[q.key].(confirmationError := Some(SignatureVerificationFailed))]
    case _ => rows
  }

  // -------------------------------------------------------------- consumer side

  datatype ConsumerCompleteResult =
    | ConsumerCompleted
    | ConsumerInvalidJobId
    | ConsumerNotOurs
    | ConsumerAlreadyFailed(reason: Text, reasonClass: Option<int>)
    | ConsumerAlreadyCompleted
    | ConsumerInvalidDelta

  function ConsumerCompleteVerdict(env: Env, rows: JobRows, consumer: PeerId, key: JobKey, delta: Option<Text>)
    : ConsumerCompleteResult
  {
    if key !in rows then ConsumerInvalidJobId
    else if rows[key].consumerPeerId != consumer then ConsumerNotOurs
    else if rows[key].reason.Some? then ConsumerAlreadyFailed(rows[key].reason.value, rows[key].reasonClass)
    else if rows[key].completedAtLocal.Some? then ConsumerAlreadyCompleted
    else if !ValidDelta(env, delta) then ConsumerInvalidDelta
    else ConsumerCompleted
  }

  datatype Completion = Completion(
    delta: Option<Text>, publicPayload: Text, privatePayload: Option<Text>, completedAtSync: int)

  function ConsumerCompletedRow(env: Env, sign: Text -> Text, row: JobRow, a: Completion, now: int): JobRow {
    var hash := env.digest(Preimage(Payload(row, a.publicPayload, a.completedAtSync, EncodedDelta(a.delta))));
    row.(balanceDelta := EncodedDelta(a.delta), publicPayload := Some(a.publicPayload),
         privatePayload := if a.privatePayload.Some? then a.privatePayload else row.privatePayload,
         completedAtLocal := Some(now), completedAtSync := Some(a.completedAtSync),
         hash := Some(hash), consumerSignature := Some(sign(hash)))
  }

  datatype ConsumerConfirmResult =
    ConsumerConfirmed | ConsumerConfirmInvalidJobId | NotSignedYet | ConsumerAlreadyConfirmed

  function ConsumerConfirmVerdict(rows: JobRows, key: JobKey): ConsumerConfirmResult {
    if key !in rows then ConsumerConfirmInvalidJobId
    else if rows[key].confirmedAt.Some? then ConsumerAlreadyConfirmed
    else if rows[key].consumerSignature.None? then NotSignedYet
    else ConsumerConfirmed
  }

  // The table after `confirm_job` has dealt with the provider's answer.
  function AfterConfirmResponse(rows: JobRows, key: JobKey, response: ConfirmResponse, now: int): JobRows
    requires key in rows
  {
    if response.ConfirmOk? then
      if rows[key].confirmedAt.None? && rows[key].consumerSignature.Some?
      then rows[key := rows[key].(confirmedAt := Some(now), confirmationError := None)]
      else rows
    else if response.AlreadyConfirmed? || rows[key].confirmedAt.Some? then rows
    else rows[key := rows[key].(confirmationError := Some(ProviderSaid(response)))]
  }

  // ------------------------------------------------------------------ both sides

  datatype FailResult =
    FailedNow | FailInvalidJobId | FailAlreadyCompleted | FailAlreadyFailed(reason: Text, reasonClass: Option<int>)

  function FailVerdict(rows: JobRows, key: JobKey): FailResult {
    if key !in rows then FailInvalidJobId
    else if rows[key].reason.Some? then FailAlreadyFailed(rows[key].reason.value, rows[key].reasonClass)
    else if rows[key].completedAtLocal.Some? then FailAlreadyCompleted
    else FailedNow
  }

  function FailedRow(row: JobRow, reason: Text, reasonClass: Option<int>, privatePayload: Option<Text>, now: int): JobRow {
    row.(reason := Some(reason), reasonClass := reasonClass, privatePayload := privatePayload,
         completedAtLocal := Some(now))
  }

  predicate Unconfirmed(row: JobRow, consumer: PeerId) {
    row.consumerPeerId == consumer && row.consumerSignature.Some? && row.confirmedAt.None?
  }

  datatype SetErrorResult = ErrorSet | SetErrorInvalidJobId | SetErrorAlreadyConfirmed

  // ------------------------------------------------------------------ the code

  class JobTable {
    var rows: JobRows

    ghost predicate Valid()
      reads this
    {
      WellFormed(rows)
    }

    constructor ()
      ensures Valid() && rows == map[]
    {
      rows := map[];
    }

    method CreateJob(key: JobKey, consumer: PeerId, protocolId: Text, offerPayload: Text, currency: Currency,
                     createdAtSync: int)
      requires Valid() && key !in rows
      modifies this
      ensures Valid()
      ensures rows == old(rows)[key := NewRow(key, consumer, protocolId, offerPayload, currency, createdAtSync)]
    {
      rows := rows[key := NewRow(key, consumer, protocolId, offerPayload, currency, createdAtSync)];
    }

    // The row is written before the Ok response is sent.
    method HandleCreateJobRequest(from: PeerId, provider: PeerId, protocolId: Text, requestedPayload: Text,
                                  currency: Currency, found: Option<Found>, reply: ModuleReply,
                                  jobId: Text, createdAtSync: int) returns (response: CreateJobResponse)
      requires Valid() && JobKey(provider, jobId) !in rows
      modifies this
      ensures Valid()
      ensures response == CreateVerdict(found, requestedPayload, reply, jobId, createdAtSync)
      ensures rows ==
        if response.CreatedOk?
        then old(rows)[JobKey(provider, jobId) :=
          NewRow(JobKey(provider, jobId), from, protocolId, found.value.rowPayload, currency, createdAtSync)]
        else old(rows)
      // each answer, and the row of an accepted request, column by column
      ensures response.OfferNotFound? <==> found.None?
      ensures response.OfferPayloadMismatch? <==> found.Some? && found.value.payload != requestedPayload
      ensures response.CreatedOk? <==> found.Some? && found.value.payload == requestedPayload && reply.ModuleOk?
      ensures response.InvalidJobArgs? <==>
        found.Some? && found.value.payload == requestedPayload && reply.ModuleInvalidArgs?
      ensures response.CreatedOk? ==>
        && response.providerJobId == jobId && response.createdAtSync == createdAtSync
        && rows == old(rows)[JobKey(provider, jobId) := rows[JobKey(provider, jobId)]]
        && rows[JobKey(provider, jobId)] ==
             JobRow(provider, from, protocolId, found.value.rowPayload, currency, jobId, createdAtSync,
                    None, None, None, None, None, None, None, None, None, None, None)
    {
      match found
      case None => return OfferNotFound;
      case Some(offer) =>
        if offer.payload == requestedPayload {
          match reply
          case ModuleOk =>
            CreateJob(JobKey(provider, jobId), from, protocolId, offer.rowPayload, currency, createdAtSync);
            return CreatedOk(jobId, createdAtSync);
          case ModuleBusy => return Busy;
          case ModuleInvalidArgs => return InvalidJobArgs;
          case ModuleUnexpected => return Busy;
        } else {
          return OfferPayloadMismatch;
        }
    }

    method ProviderCompleteJob(env: Env, key: JobKey, delta: Option<Text>, privatePayload: Option<Text>,
                               publicPayload: Text, now: int) returns (result: ProviderCompleteResult)
      requires Valid()
      modifies this
      ensures Valid()
      ensures result == ProviderCompleteVerdict(env, old(rows), key, delta)
      ensures rows ==
        if result.ProviderCompleted?
        then old(rows)[key := ProviderCompletedRow(old(rows)[key], delta, privatePayload, publicPayload, now)]
        else old(rows)
      // each refusal, and the billed columns, all others unchanged
      ensures result.ProviderJobNotFound? <==> key !in old(rows)
      ensures result.ProviderAlreadyFailed? <==> key in old(rows) && old(rows)[key].reason.Some?
      ensures result.ProviderAlreadyFailed? ==>
        Some(result.reason) == old(rows)[key].reason && result.reasonClass == old(rows)[key].reasonClass
      ensures result.ProviderAlreadyCompleted? <==>
        key in old(rows) && old(rows)[key].reason.None? && old(rows)[key].completedAtSync.Some?
      ensures result.ProviderAlreadyCompleted? ==> Some(result.completedAtSync) == old(rows)[key].completedAtSync
      ensures result.ProviderInvalidDelta? <==>
        && key in old(rows) && old(rows)[key].reason.None? && old(rows)[key].completedAtSync.None?
        && delta.Some? && env.parse(delta.value).None?
      ensures result.ProviderCompleted? ==>
        && key in old(rows) && key in rows && rows == old(rows)[key := rows[key]]
        && rows[key].balanceDelta == delta
        && rows[key].publicPayload == Some(publicPayload)
        && rows[key].completedAtSync == Some(now)
        && rows[key].privatePayload == (if privatePayload.Some? then privatePayload else old(rows)[key].privatePayload)
        && rows[key] == old(rows)[key].(balanceDelta := rows[key].balanceDelta, publicPayload := rows[key].publicPayload,
             completedAtSync := rows[key].completedAtSync, privatePayload := rows[key].privatePayload)
    {
      if key !in rows {
        return ProviderJobNotFound;
      }
      var job := rows[key];
      if job.reason.Some? {
        return ProviderAlreadyFailed(job.reason.value, job.reasonClass);
      } else if job.completedAtSync.Some? {
        return ProviderAlreadyCompleted(job.completedAtSync.value);
      } else if delta.Some? {
        if env.parse(delta.value).None? {
          return ProviderInvalidDelta;
        }
      }
      rows := rows[key := ProviderCompletedRow(job, delta, privatePayload, publicPayload, now)];
      result := ProviderCompleted;
    }

    method ProviderConfirmJob(env: Env, from: PeerId, q: ConfirmRequest, now: int) returns (result: ProviderConfirmResult)
      requires Valid()
      modifies this
      ensures Valid()
      ensures result == ConfirmVerdict(env, old(rows), from, q)
      ensures rows ==
        if result.Confirmed? then AfterConfirmRequest(env, old(rows), from, q, now) else old(rows)
      ensures result.ConfirmJobNotFound? <==> q.key !in old(rows)
      ensures result.ConsumerPeerIdMismatch? <==> q.key in old(rows) && old(rows)[q.key].consumerPeerId != from
      ensures q.key in old(rows) && old(rows)[q.key].consumerPeerId == from ==>
        var row := old(rows)[q.key];
        && (result.ConfirmAlreadyConfirmed? <==> row.confirmedAt.Some?)
        && (result.ConfirmNotCompletedYet? <==> row.confirmedAt.None? && row.completedAtSync.None?)
        && (result.ConfirmAlreadyFailed? <==> row.confirmedAt.None? && row.completedAtSync.Some? && row.reason.Some?)
        && (row.confirmedAt.None? && row.completedAtSync.Some? && row.reason.None? ==>
              var expected := env.digest(Preimage(JobHashingPayload(
                row.consumerPeerId, row.providerPeerId, row.protocolId, row.offerPayload, Code(row.currency),
                row.providerJobId, row.createdAtSync, row.publicPayload.value, row.completedAtSync.value,
                EncodedDelta(row.balanceDelta))));
              && (result.ConfirmHashMismatch? <==> q.hash != expected)
              && (result.ConfirmHashMismatch? ==> result.expected == expected)
              && (result.ConfirmBadKey? <==> q.hash == expected && !env.decodes(q.publicKey))
              && (result.ConfirmBadSignature? <==>
                    q.hash == expected && env.decodes(q.publicKey) && !env.verify(q.publicKey, q.hash, q.signature))
              && (result.Confirmed? <==>
                    q.hash == expected && env.decodes(q.publicKey) && env.verify(q.publicKey, q.hash, q.signature)))
      ensures result.Confirmed? ==>
        rows == old(rows)[q.key := old(rows)[q.key].(
          consumerSignature := Some(q.signature), confirmedAt := Some(now), confirmationError := None)]
    {
      if q.key !in rows {
        return ConfirmJobNotFound;
      }
      var job := rows[q.key];
      if job.consumerPeerId != from {
        return ConsumerPeerIdMismatch;
      } else if job.confirmedAt.Some? {
        return ConfirmAlreadyConfirmed;
      } else if job.completedAtSync.None? {
        return ConfirmNotCompletedYet;
      } else if job.reason.Some? {
        return ConfirmAlreadyFailed;
      }
      var balanceDelta := if job.balanceDelta.Some? then Some(Hex(job.balanceDelta.value)) else None;
      var expected := HashJob(env.digest,
        JobHashingPayload(job.consumerPeerId, job.providerPeerId, job.protocolId, job.offerPayload, Code(job.currency),
                          q.key.providerJobId, job.createdAtSync, job.publicPayload.value, job.completedAtSync.value,
                          balanceDelta));
      if q.hash != expected {
        return ConfirmHashMismatch(expected);
      }
      if env.decodes(q.publicKey) {
        if !env.verify(q.publicKey, q.hash, q.signature) {
          return ConfirmBadSignature;
        }
      } else {
        return ConfirmBadKey;
      }
      rows := rows[q.key := job.(consumerSignature := Some(q.signature), confirmedAt := Some(now), confirmationError := None)];
      result := Confirmed;
    }

    method SetJobConfirmationError(key: JobKey, error: ConfirmationError) returns (result: SetErrorResult)
      requires Valid()
      modifies this
      ensures Valid()
      ensures result ==
        if key !in old(rows) then SetErrorInvalidJobId
        else if old(rows)[key].confirmedAt.Some? then SetErrorAlreadyConfirmed else ErrorSet
      ensures rows ==
        if result.ErrorSet? then old(rows)[key := old(rows)[key].(confirmationError := Some(error))] else old(rows)
    {
      if key !in rows {
        return SetErrorInvalidJobId;
      }
      if rows[key].confirmedAt.Some? {
        return SetErrorAlreadyConfirmed;
      }
      rows := rows[key := rows[key].(confirmationError := Some(error))];
      result := ErrorSet;
    }

    // The job connection lock is held throughout, so the second write sees the same row.
    method HandleConfirmJobRequest(env: Env, from: PeerId, q: ConfirmRequest, now: int) returns (response: ConfirmResponse)
      requires Valid()
      modifies this
      ensures Valid()
      ensures response == ResponseTo(ConfirmVerdict(env, old(rows), from, q))
      ensures rows == AfterConfirmRequest(env, old(rows), from, q, now)
      ensures AnswersRequest(env, old(rows), from, q, response)
      ensures response.ConfirmOk? ==>
        rows == old(rows)[q.key := old(rows)[q.key].(
          consumerSignature := Some(q.signature), confirmedAt := Some(now), confirmationError := None)]
      ensures response.HashMismatch? ==>
        rows == old(rows)[q.key :=
          old(rows)[q.key].(confirmationError := Some(GotWrongHash(q.hash, response.expected)))]
      ensures response.InvalidSignature? ==>
        rows == old(rows)[q.key := old(rows)[q.key].(confirmationError := Some(SignatureVerificationFailed))]
      ensures !response.ConfirmOk? && !response.HashMismatch? && !response.InvalidSignature? ==> rows == old(rows)
    {
      var result := ProviderConfirmJob(env, from, q, now);
      response := ResponseTo(result);
      match result
      case ConfirmHashMismatch(expected) =>
        var recorded := SetJobConfirmationError(q.key, GotWrongHash(q.hash, expected));
        assert recorded.ErrorSet?;
      case ConfirmBadSignature =>
        var recorded := SetJobConfirmationError(q.key, SignatureVerificationFailed);
        assert recorded.ErrorSet?;
      case _ =>
    }

    method ConsumerCompleteJob(env: Env, sign: Text -> Text, consumer: PeerId, key: JobKey, a: Completion, now: int)
      returns (result: ConsumerCompleteResult, record: Option<JobRow>)
      requires Valid()
      modifies this
      ensures Valid()
      ensures result == ConsumerCompleteVerdict(env, old(rows), consumer, key, a.delta)
      ensures rows ==
        if result.ConsumerCompleted?
        then old(rows)[key := ConsumerCompletedRow(env, sign, old(rows)[key], a, now)]
        else old(rows)
      // each refusal, and the signed columns, all others unchanged
      ensures result.ConsumerInvalidJobId? <==> key !in old(rows)
      ensures result.ConsumerNotOurs? <==> key in old(rows) && old(rows)[key].consumerPeerId != consumer
      ensures key in old(rows) && old(rows)[key].consumerPeerId == consumer ==>
        var row := old(rows)[key];
        && (result.ConsumerAlreadyFailed? <==> row.reason.Some?)
        && (result.ConsumerAlreadyFailed? ==> Some(result.reason) == row.reason && result.reasonClass == row.reasonClass)
        && (result.ConsumerAlreadyCompleted? <==> row.reason.None? && row.completedAtLocal.Some?)
        && (result.ConsumerInvalidDelta? <==>
              row.reason.None? && row.completedAtLocal.None? && a.delta.Some? && env.parse(a.delta.value).None?)
      ensures result.ConsumerCompleted? ==>
        && key in old(rows) && key in rows && rows == old(rows)[key := rows[key]]
        && var row, encoded := old(rows)[key], if a.delta.Some? then Some(Hex(a.delta.value)) else None;
        && var hash := env.digest(Preimage(JobHashingPayload(
             row.consumerPeerId, row.providerPeerId, row.protocolId, row.offerPayload, Code(row.currency),
             row.providerJobId, row.createdAtSync, a.publicPayload, a.completedAtSync, encoded)));
        && rows[key] == row.(balanceDelta := encoded, publicPayload := Some(a.publicPayload),
             privatePayload := if a.privatePayload.Some? then a.privatePayload else row.privatePayload,
             completedAtLocal := Some(now), completedAtSync := Some(a.completedAtSync),
             hash := Some(hash), consumerSignature := Some(sign(hash)))
      // the record sent to subscribers is the stored row, apart from hash and signature
      ensures result.ConsumerCompleted? <==> record.Some?
      ensures record.Some? ==> record.value == rows[key].(hash := old(rows)[key].hash,
                                                         consumerSignature := old(rows)[key].consumerSignature)
    {
      record := None;
      if key !in rows {
        return ConsumerInvalidJobId, None;
      }
      var job := rows[key];
      if job.consumerPeerId != consumer {
        return ConsumerNotOurs, None;
      } else if job.reason.Some? {
        return ConsumerAlreadyFailed(job.reason.value, job.reasonClass), None;
      } else if job.completedAtLocal.Some? {
        return ConsumerAlreadyCompleted, None;
      } else if a.delta.Some? {
        if env.parse(a.delta.value).None? {
          return ConsumerInvalidDelta, None;
        }
      }
      var balanceDelta := if a.delta.Some? then Some(Hex(a.delta.value)) else None;
      var hash := HashJob(env.digest, Payload(job, a.publicPayload, a.completedAtSync, balanceDelta));
      var signature := sign(hash);
      rows := rows[key := job.(balanceDelta := balanceDelta, publicPayload := Some(a.publicPayload),
        privatePayload := if a.privatePayload.Some? then a.privatePayload else job.privatePayload,
        completedAtLocal := Some(now), completedAtSync := Some(a.completedAtSync),
        hash := Some(hash), consumerSignature := Some(signature))];
      job := job.(balanceDelta := balanceDelta, publicPayload := Some(a.publicPayload));
      if a.privatePayload.Some? {
        job := job.(privatePayload := a.privatePayload);
      }
      job := job.(completedAtLocal := Some(now), completedAtSync := Some(a.completedAtSync));
      return ConsumerCompleted, Some(job);
    }

    method ConsumerConfirmJob(key: JobKey, now: int) returns (result: ConsumerConfirmResult)
      requires Valid()
      modifies this
      ensures Valid()
      ensures result == ConsumerConfirmVerdict(old(rows), key)
      ensures rows ==
        if result.ConsumerConfirmed?
        then old(rows)[key := old(rows)[key].(confirmedAt := Some(now), confirmationError := None)]
        else old(rows)
      ensures result.ConsumerConfirmInvalidJobId? <==> key !in old(rows)
      ensures result.ConsumerAlreadyConfirmed? <==> key in old(rows) && old(rows)[key].confirmedAt.Some?
      ensures result.NotSignedYet? <==>
        key in old(rows) && old(rows)[key].confirmedAt.None? && old(rows)[key].consumerSignature.None?
    {
      if key !in rows {
        return ConsumerConfirmInvalidJobId;
      }
      if rows[key].confirmedAt.Some? {
        return ConsumerAlreadyConfirmed;
      } else if rows[key].consumerSignature.None? {
        return NotSignedYet;
      }
      rows := rows[key := rows[key].(confirmedAt := Some(now), confirmationError := None)];
      result := ConsumerConfirmed;
    }

    // The second half of `confirm_job`. The `unreachable!` arms are the assertions.
    method HandleConfirmJobResponse(key: JobKey, response: ConfirmResponse, now: int)
      requires Valid() && key in rows && rows[key].consumerSignature.Some?
      modifies this
      ensures Valid()
      ensures rows == AfterConfirmResponse(old(rows), key, response, now)
      ensures response.AlreadyConfirmed? || old(rows)[key].confirmedAt.Some? ==> rows == old(rows)
      ensures response.ConfirmOk? && old(rows)[key].confirmedAt.None? ==>
        rows == old(rows)[key := old(rows)[key].(confirmedAt := Some(now), confirmationError := None)]
      ensures !response.ConfirmOk? && !response.AlreadyConfirmed? && old(rows)[key].confirmedAt.None? ==>
        rows == old(rows)[key := old(rows)[key].(confirmationError := Some(ProviderSaid(response)))]
    {
      match response
      case ConfirmOk =>
        var result := ConsumerConfirmJob(key, now);
        assert !result.ConsumerConfirmInvalidJobId? && !result.NotSignedYet?;
      case AlreadyConfirmed =>
      case _ =>
        var recorded := SetJobConfirmationError(key, ProviderSaid(response));
        assert !recorded.SetErrorInvalidJobId?;
    }

    method FailJob(key: JobKey, reason: Text, reasonClass: Option<int>, privatePayload: Option<Text>, now: int)
      returns (result: FailResult)
      requires Valid()
      modifies this
      ensures Valid()
      ensures result == FailVerdict(old(rows), key)
      ensures rows ==
        if result.FailedNow?
        then old(rows)[key := FailedRow(old(rows)[key], reason, reasonClass, privatePayload, now)]
        else old(rows)
      ensures result.FailInvalidJobId? <==> key !in old(rows)
      ensures result.FailAlreadyFailed? <==> key in old(rows) && old(rows)[key].reason.Some?
      ensures result.FailAlreadyFailed? ==>
        Some(result.reason) == old(rows)[key].reason && result.reasonClass == old(rows)[key].reasonClass
      ensures result.FailAlreadyCompleted? <==>
        key in old(rows) && old(rows)[key].reason.None? && old(rows)[key].completedAtLocal.Some?
      ensures result.FailedNow? ==>
        rows == old(rows)[key := old(rows)[key].(reason := Some(reason), reasonClass := reasonClass,
          privatePayload := privatePayload, completedAtLocal := Some(now))]
    {
      if key !in rows {
        return FailInvalidJobId;
      }
      var job := rows[key];
      if job.reason.Some? {
        return FailAlreadyFailed(job.reason.value, job.reasonClass);
      } else if job.completedAtLocal.Some? {
        return FailAlreadyCompleted;
      }
      rows := rows[key := FailedRow(job, reason, reasonClass, privatePayload, now)];
      result := FailedNow;
    }

    // One turn of the confirmation loop: a task for every unconfirmed job of a reachable provider.
    method SpawnConfirmations(consumer: PeerId, publicKey: Text, peers: set<PeerId>) returns (spawned: seq<ConfirmRequest>)
      requires Valid()
      requires forall k | k in rows && rows[k].consumerSignature.Some? :: rows[k].hash.Some?
      ensures NoDuplicates(spawned)
      ensures forall q :: q in spawned <==>
        && q.key in rows && rows[q.key].consumerPeerId == consumer && rows[q.key].consumerSignature.Some?
        && rows[q.key].confirmedAt.None? && q.key.providerPeerId in peers
        && q == ConfirmRequest(q.key, rows[q.key].hash.value, publicKey, rows[q.key].consumerSignature.value)
    {
      spawned := [];
      var todo := rows.Keys;
      while todo != {}
        invariant todo <= rows.Keys && NoDuplicates(spawned)
        invariant forall q :: q in spawned <==>
          && q.key in rows && q.key !in todo && Unconfirmed(rows[q.key], consumer) && q.key.providerPeerId in peers
          && q == ConfirmRequest(q.key, rows[q.key].hash.value, publicKey, rows[q.key].consumerSignature.value)
      {
        var key := Pick(todo);
        todo := todo - {key};
        var row := rows[key];
        if Unconfirmed(row, consumer) && row.providerPeerId in peers {
          spawned := spawned + [ConfirmRequest(key, row.hash.value, publicKey, row.consumerSignature.value)];
        }
      }
    }
  }
}
