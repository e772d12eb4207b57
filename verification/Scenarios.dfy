/**
 Concrete histories of the job protocol: that what the other modules say can
 happen does happen. They hold for any parties whose signatures verify.
 */
module Scenarios {
  import opened Base
  import opened Jobs
  import opened Protocol
  import opened Ledger

  function Key(x: Parties): JobKey {
    JobKey(x.provider, [])
  }

  // Of the provided offer `stored` is the payload of the row it names, `offered` its own.
  function Create(offered: Text, stored: Text): Step {
    Step.CreateJob([], [], offered, Some(Found(offered, stored)), ModuleOk, Polygon, 0)
  }

  function Accept(x: Parties, offered: Text): Step {
    AcceptJob(Created(Key(x), [], offered, Polygon, 0))
  }

  function Opened(x: Parties, offered: Text, stored: Text): seq<Step> {
    [Create(offered, stored), Accept(x, offered)]
  }

  function Reported(x: Parties, offered: Text, stored: Text): seq<Step> {
    Opened(x, offered, stored) + [ProviderComplete(Key(x), None, None, [], 0), AskJob(Key(x))]
  }

  // Created, completed by the provider, copied and signed by the consumer, and one confirm task.
  function Signed(x: Parties, offered: Text, stored: Text): seq<Step> {
    Reported(x, offered, stored) + [ConsumerComplete(Key(x), Completion(None, [], None, 0), 0), Spawn(Key(x))]
  }

  lemma OneMore(x: Parties, steps: seq<Step>, step: Step)
    ensures After(x, steps + [step]) == Next(x, After(x, steps), step)
    ensures CopyingRun(x, steps) && CopyingStep(After(x, steps), step) ==> CopyingRun(x, steps + [step])
  {
    assert (steps + [step])[..|steps|] == steps;
  }

  lemma TwoMore(x: Parties, steps: seq<Step>, a: Step, b: Step)
    ensures After(x, steps + [a, b]) == Next(x, Next(x, After(x, steps), a), b)
    ensures CopyingRun(x, steps) && CopyingStep(After(x, steps), a) && CopyingStep(Next(x, After(x, steps), a), b) ==>
      CopyingRun(x, steps + [a, b])
  {
    OneMore(x, steps, a);
    OneMore(x, steps + [a], b);
    assert steps + [a, b] == steps + [a] + [b];
  }

  lemma AfterOpened(x: Parties, offered: Text, stored: Text)
    ensures var w := After(x, Opened(x, offered, stored));
      && w.p == map[Key(x) := NewRow(Key(x), x.consumer, [], stored, Polygon, 0)]
      && w.c == map[Key(x) := NewRow(Key(x), x.consumer, [], offered, Polygon, 0)]
      && w.tasks == []
    ensures CopyingRun(x, Opened(x, offered, stored))
  {
    TwoMore(x, [], Create(offered, stored), Accept(x, offered));
    assert [] + [Create(offered, stored), Accept(x, offered)] == Opened(x, offered, stored);
  }

  lemma AfterReported(x: Parties, offered: Text, stored: Text)
    ensures var w := After(x, Reported(x, offered, stored));
      && w.p == map[Key(x) := ProviderCompletedRow(NewRow(Key(x), x.consumer, [], stored, Polygon, 0), None, None, [], 0)]
      && w.c == map[Key(x) := NewRow(Key(x), x.consumer, [], offered, Polygon, 0)]
      && w.tasks == [] && Report(Key(x), Some([]), None, Some(0)) in w.reports
    ensures CopyingRun(x, Reported(x, offered, stored))
  {
    AfterOpened(x, offered, stored);
    TwoMore(x, Opened(x, offered, stored), ProviderComplete(Key(x), None, None, [], 0), AskJob(Key(x)));
  }

  lemma AfterSigned(x: Parties, offered: Text, stored: Text)
    ensures var w := After(x, Signed(x, offered, stored));
      && Key(x) in w.p && w.p[Key(x)].confirmedAt.None? && w.p[Key(x)].reason.None?
      && w.p[Key(x)].offerPayload == stored
      && Key(x) in w.c && w.c[Key(x)].confirmedAt.None? && w.c[Key(x)].offerPayload == offered
      && |w.tasks| == 1 && w.tasks[0].key == Key(x) && w.tasks[0].answer.None? && w.tasks[0].outcome.Waiting?
    ensures CopyingRun(x, Signed(x, offered, stored))
  {
    AfterReported(x, offered, stored);
    TwoMore(x, Reported(x, offered, stored), ConsumerComplete(Key(x), Completion(None, [], None, 0), 0), Spawn(Key(x)));
  }

  // The two payloads of a pair provided twice: the copying consumer is told its hash is wrong.
  lemma SecondPayloadMismatches(x: Parties, first: Text, second: Text) returns (steps: seq<Step>)
    requires IdealSignature(x) && Injective(x.env.digest) && first != second
    ensures CopyingRun(x, steps)
    ensures |After(x, steps).tasks| == 1 && Key(x) in After(x, steps).p && Completed(After(x, steps).p[Key(x)])
    ensures IsAnswered(x, After(x, steps), 0, 0, HashMismatch(ProviderHash(x.env, After(x, steps).p[Key(x)])))
  {
    steps := Signed(x, second, first);
    AfterSigned(x, second, first);
    CopyingConfirmsDecided(x, steps, 0, 0);
  }

  lemma SignedIsHonest(x: Parties)
    ensures HonestRun(x, Signed(x, [], []))
  {
    AfterSigned(x, [], []);
  }

  function Confirmed(x: Parties): seq<Step> {
    Signed(x, [], []) + [Deliver(0, 0)]
  }

  // The provider has said Ok and the consumer has not heard it yet.
  ghost predicate OkOnItsWay(x: Parties, w: World) {
    && Key(x) in w.p && w.p[Key(x)].confirmedAt.Some? && w.p[Key(x)].reason.None?
    && |w.tasks| == 1 && w.tasks[0].key == Key(x) && SaidOk(w.tasks[0]) && w.tasks[0].outcome.Waiting?
  }

  lemma AfterConfirmed(x: Parties)
    requires IdealSignature(x)
    ensures HonestRun(x, Confirmed(x)) && OkOnItsWay(x, After(x, Confirmed(x)))
  {
    AfterSigned(x, [], []);
    SignedIsHonest(x);
    HonestConfirmsSucceed(x, Signed(x, [], []), 0, 0);
    OneMore(x, Signed(x, [], []), Deliver(0, 0));
  }

  lemma HonestStays(x: Parties, steps: seq<Step>, step: Step)
    requires HonestRun(x, steps) && !step.CreateJob? && !step.ConsumerComplete?
    ensures HonestRun(x, steps + [step])
    ensures After(x, steps + [step]) == Next(x, After(x, steps), step)
  {
    OneMore(x, steps, step);
  }

  // A provider row both confirmed and failed.
  lemma ConfirmedJobsCanFail(x: Parties) returns (steps: seq<Step>)
    requires IdealSignature(x)
    ensures HonestRun(x, steps)
    ensures var w := After(x, steps); Key(x) in w.p && w.p[Key(x)].confirmedAt.Some? && w.p[Key(x)].reason.Some?
  {
    var fail := ProviderFail(Key(x), [], None, None, 0);
    AfterConfirmed(x);
    steps := Confirmed(x) + [fail];
    HonestStays(x, Confirmed(x), fail);
    OnlyConsumersGuardFailure(x, Confirmed(x), Key(x));
    FailingKeepsConfirmation(x, After(x, Confirmed(x)), fail);
  }

  lemma FailingKeepsConfirmation(x: Parties, w: World, fail: Step)
    requires fail.ProviderFail? && FailVerdict(w.p, fail.key).FailedNow?
    ensures var p := Next(x, w, fail).p;
      fail.key in p && p[fail.key].confirmedAt == w.p[fail.key].confirmedAt && p[fail.key].reason.Some?
  {
  }

  // An Ok that is lost: confirmed on the provider, unconfirmed on the consumer, for good.
  lemma OksCanBeLost(x: Parties) returns (steps: seq<Step>)
    requires IdealSignature(x)
    ensures HonestRun(x, steps)
    ensures var w := After(x, steps); Key(x) in ConfirmedKeys(w.p) && Key(x) in OutstandingOks(w.tasks)
    ensures forall more: seq<Step> :: Key(x) !in ConfirmedKeys(After(x, steps + more).c)
  {
    AfterConfirmed(x);
    steps := Confirmed(x) + [GiveUp(0)];
    HonestStays(x, Confirmed(x), GiveUp(0));
    var w := After(x, steps);
    var t := w.tasks[0];
    assert SaidOk(t) && t.outcome.GaveUp? && t.key == Key(x);
    forall more: seq<Step>
      ensures Key(x) !in ConfirmedKeys(After(x, steps + more).c)
    {
      assert (steps + more)[..|steps|] == steps;
      LostOksAreFinal(x, steps + more, |steps|, 0, t);
    }
  }
}
