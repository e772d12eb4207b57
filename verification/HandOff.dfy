/**
 Joining a P2P stream with the Yamux stream a module opens for it: a shared
 counter hands out connection ids, and a table keeps the streams that wait.
 A consumer takes an id and inserts under the counter's lock; a provider task takes
 its id first and inserts later, so any number of ids can be out in between. (A
 consumer whose insert waits for the table's lock is the provider's pair of steps.)
 */
module HandOff {
  import opened Base

  type StreamId = nat

  // `held`: ids taken by provider tasks that have not inserted yet.
  datatype State = State(
    counter: nat,
    held: map<nat, StreamId>,
    waiting: map<nat, StreamId>,
    joined: map<nat, StreamId>)

  const NEW := State(0, map[], map[], map[])

  datatype Step =
    | ConsumerOpen(stream: StreamId)
    | ProviderTake(stream: StreamId)
    | ProviderInsert(id: nat)
    | Arrive(id: nat)

  // Where a stream is, over all three tables.
  ghost function Place(s: State, id: nat): Option<StreamId> {
    if id in s.held then Some(s.held[id])
    else if id in s.waiting then Some(s.waiting[id])
    else if id in s.joined then Some(s.joined[id])
    else None
  }

  ghost predicate Unused(s: State, stream: StreamId) {
    forall id :: Place(s, id) != Some(stream)
  }

  // A stream object is handed in once.
  ghost function Next(s: State, step: Step): State {
    match step
    case ConsumerOpen(stream) => if Unused(s, stream) then Opened(s, stream) else s
    case ProviderTake(stream) => if Unused(s, stream) then Taken(s, stream) else s
    case ProviderInsert(id) => if id in s.held then Inserted(s, id) else s
    case Arrive(id) => if id in s.waiting then Joined(s, id) else s
  }

  function Opened(s: State, stream: StreamId): State {
    s.(counter := s.counter + 1, waiting := s.waiting[s.counter + 1 := stream])
  }

  function Taken(s: State, stream: StreamId): State {
    s.(counter := s.counter + 1, held := s.held[s.counter + 1 := stream])
  }

  function Inserted(s: State, id: nat): State
    requires id in s.held
  {
    s.(held := s.held - {id}, waiting := s.waiting[id := s.held[id]])
  }

  function Joined(s: State, id: nat): State
    requires id in s.waiting
  {
    s.(waiting := s.waiting - {id}, joined := s.joined[id := s.waiting[id]])
  }

  ghost function After(steps: seq<Step>): State {
    if steps == [] then NEW else Next(After(steps[..|steps| - 1]), steps[|steps| - 1])
  }

  // ------------------------------------------------------------------ invariant

  ghost predicate Bounded(s: State) {
    forall id | id in s.held || id in s.waiting || id in s.joined :: 1 <= id <= s.counter
  }

  // No id is in two places.
  ghost predicate Disjoint(s: State) {
    s.held.Keys !! s.waiting.Keys && s.held.Keys !! s.joined.Keys && s.waiting.Keys !! s.joined.Keys
  }

  ghost predicate StreamsOnce(s: State) {
    forall i, j | Place(s, i).Some? && Place(s, i) == Place(s, j) :: i == j
  }

  ghost predicate Accounted(s: State) {
    s.counter == |s.held| + |s.waiting| + |s.joined|
  }

  ghost predicate Sound(s: State) {
    Bounded(s) && Disjoint(s) && StreamsOnce(s)
  }

  // Both ways of handing out an id put the stream under it and move nothing else.
  lemma NewIdPlaces(s: State, stream: StreamId, t: State, i: nat)
    requires Bounded(s) && (t == Opened(s, stream) || t == Taken(s, stream))
    ensures Place(t, i) == (if i == s.counter + 1 then Some(stream) else Place(s, i))
  {
  }

  lemma NewIdKeepsStreamsOnce(s: State, stream: StreamId, t: State)
    requires Bounded(s) && StreamsOnce(s) && Unused(s, stream)
    requires t == Opened(s, stream) || t == Taken(s, stream)
    ensures StreamsOnce(t)
  {
    forall i, j | Place(t, i).Some? && Place(t, i) == Place(t, j)
      ensures i == j
    {
      NewIdPlaces(s, stream, t, i);
      NewIdPlaces(s, stream, t, j);
    }
  }

  lemma NewIdIsFree(s: State)
    requires Bounded(s)
    ensures Place(s, s.counter + 1) == None
  {
  }

  lemma NewIdKeepsAccounted(s: State, stream: StreamId, t: State)
    requires Bounded(s) && Accounted(s)
    requires t == Opened(s, stream) || t == Taken(s, stream)
    ensures Accounted(t)
  {
  }

  lemma NewIdKeepsSound(s: State, stream: StreamId, t: State)
    requires Sound(s) && Unused(s, stream)
    requires t == Opened(s, stream) || t == Taken(s, stream)
    ensures s.counter + 1 !in s.waiting
    ensures Sound(t)
  {
    NewIdIsFree(s);
    NewIdKeepsStreamsOnce(s, stream, t);
  }

  lemma SamePlacesKeepStreamsOnce(s: State, t: State)
    requires StreamsOnce(s) && forall i :: Place(t, i) == Place(s, i)
    ensures StreamsOnce(t)
  {
  }

  lemma InsertKeepsSound(s: State, id: nat)
    requires Sound(s) && id in s.held
    ensures id !in s.waiting
    ensures Sound(Inserted(s, id))
  {
    SamePlacesKeepStreamsOnce(s, Inserted(s, id));
  }

  lemma JoinKeepsSound(s: State, id: nat)
    requires Sound(s) && id in s.waiting
    ensures id !in s.joined
    ensures Sound(Joined(s, id))
  {
    SamePlacesKeepStreamsOnce(s, Joined(s, id));
  }

  lemma StepKeepsSound(s: State, step: Step)
    requires Sound(s)
    ensures Sound(Next(s, step))
  {
    match step
    case ConsumerOpen(stream) =>
      if Unused(s, stream) {
        NewIdKeepsSound(s, stream, Opened(s, stream));
      }
    case ProviderTake(stream) =>
      if Unused(s, stream) {
        NewIdKeepsSound(s, stream, Taken(s, stream));
      }
    case ProviderInsert(id) =>
      if id in s.held {
        InsertKeepsSound(s, id);
      }
    case Arrive(id) =>
      if id in s.waiting {
        JoinKeepsSound(s, id);
      }
  }

  lemma InsertKeepsAccounted(s: State, id: nat)
    requires Disjoint(s) && Accounted(s) && id in s.held
    ensures Accounted(Inserted(s, id))
  {
  }

  lemma JoinKeepsAccounted(s: State, id: nat)
    requires Disjoint(s) && Accounted(s) && id in s.waiting
    ensures Accounted(Joined(s, id))
  {
  }

  lemma StepKeepsAccounted(s: State, step: Step)
    requires Bounded(s) && Disjoint(s) && Accounted(s)
    ensures Accounted(Next(s, step))
  {
    match step
    case ConsumerOpen(stream) => NewIdKeepsAccounted(s, stream, Opened(s, stream));
    case ProviderTake(stream) => NewIdKeepsAccounted(s, stream, Taken(s, stream));
    case ProviderInsert(id) =>
      if id in s.held {
        InsertKeepsAccounted(s, id);
      }
    case Arrive(id) =>
      if id in s.waiting {
        JoinKeepsAccounted(s, id);
      }
  }

  ghost predicate Arrived(s: State, id: nat) {
    id in s.waiting || id in s.joined
  }

  // No step moves a stream to another id or forgets it, and none takes a joined stream back.
  lemma StepKeepsPlaces(s: State, step: Step, id: nat)
    requires Bounded(s) && Disjoint(s)
    ensures Place(s, id).Some? ==> Place(Next(s, step), id) == Place(s, id)
    ensures Arrived(s, id) ==> Arrived(Next(s, step), id)
    ensures id in s.joined ==> id in Next(s, step).joined && Next(s, step).joined[id] == s.joined[id]
  {
  }

  // Every interleaving: an id is in one table, a stream under one id, hence joined at most once.
  lemma {:induction false} AlwaysSound(steps: seq<Step>)
    ensures Sound(After(steps))
  {
    if steps != [] {
      AlwaysSound(steps[..|steps| - 1]);
      StepKeepsSound(After(steps[..|steps| - 1]), steps[|steps| - 1]);
    }
  }

  // Conservation: ids handed out = streams held + waiting + joined. No insert overwrote one.
  lemma {:induction false} AlwaysAccounted(steps: seq<Step>)
    ensures Accounted(After(steps))
  {
    if steps != [] {
      AlwaysAccounted(steps[..|steps| - 1]);
      AlwaysSound(steps[..|steps| - 1]);
      StepKeepsAccounted(After(steps[..|steps| - 1]), steps[|steps| - 1]);
    }
  }

  lemma LastStepKeepsPlaces(steps: seq<Step>, id: nat)
    requires steps != []
    ensures var before := After(steps[..|steps| - 1]);
      && (Arrived(before, id) ==> Arrived(After(steps), id))
      && (Arrived(before, id) ==> Place(After(steps), id) == Place(before, id))
  {
    AlwaysSound(steps[..|steps| - 1]);
    StepKeepsPlaces(After(steps[..|steps| - 1]), steps[|steps| - 1], id);
  }

  // A waiting stream is never lost: at any later time it still waits under its id or was joined.
  lemma {:induction false} WaitingStreamsSurvive(steps: seq<Step>, n: nat, id: nat)
    requires n <= |steps| && Arrived(After(steps[..n]), id)
    ensures Place(After(steps), id) == Place(After(steps[..n]), id)
    ensures Arrived(After(steps), id)
    decreases |steps|
  {
    if n == |steps| {
      assert steps[..n] == steps;
    } else {
      var m := |steps| - 1;
      assert steps[..m][..n] == steps[..n];
      WaitingStreamsSurvive(steps[..m], n, id);
      LastStepKeepsPlaces(steps, id);
    }
  }

  // -------------------------------------------------------------------- the code

  class FutureConnections {
    var counter: nat
    var waiting: map<nat, StreamId>
    ghost var held: map<nat, StreamId>
    ghost var joined: map<nat, StreamId>

    ghost function Current(): State
      reads this
    {
      State(counter, held, waiting, joined)
    }

    ghost predicate Valid()
      reads this
    {
      Sound(Current())
    }

    constructor ()
      ensures Valid() && Current() == NEW
    {
      counter, waiting, held, joined := 0, map[], map[], map[];
    }

    // Consumer: counter and table under the counter's lock.
    method Open(stream: StreamId) returns (id: nat)
      requires Valid() && Unused(Current(), stream)
      modifies this
      ensures Valid() && Current() == Opened(old(Current()), stream) && id == counter
      ensures counter == old(counter) + 1 && id !in old(waiting) && waiting == old(waiting)[id := stream]
      ensures held == old(held) && joined == old(joined)
    {
      ghost var before := Current();
      NewIdKeepsSound(before, stream, Opened(before, stream));
      counter := counter + 1;
      id := counter;
      assert id !in waiting;
      waiting := waiting[id := stream];
      assert Current() == Opened(before, stream);
    }

    // Provider, first step: only the counter.
    method TakeId(stream: StreamId) returns (id: nat)
      requires Valid() && Unused(Current(), stream)
      modifies this
      ensures Valid() && Current() == Taken(old(Current()), stream) && id == counter
      ensures counter == old(counter) + 1 && id !in old(held) && held == old(held)[id := stream]
      ensures waiting == old(waiting) && joined == old(joined)
    {
      ghost var before := Current();
      NewIdKeepsSound(before, stream, Taken(before, stream));
      counter := counter + 1;
      id := counter;
      held := held[id := stream];
      assert Current() == Taken(before, stream);
    }

    // Provider, second step: only the table.
    method Insert(id: nat, stream: StreamId)
      requires Valid() && id in held && held[id] == stream
      modifies this
      ensures Valid() && Current() == Next(old(Current()), ProviderInsert(id))
      ensures id !in old(waiting) && waiting == old(waiting)[id := stream] && held == old(held) - {id}
      ensures counter == old(counter) && joined == old(joined)
    {
      InsertKeepsSound(Current(), id);
      assert id !in waiting;
      waiting := waiting[id := stream];
      held := held - {id};
    }

    // A Yamux stream arrives and names an id.
    method HandleYamuxStream(id: nat) returns (stream: Option<StreamId>)
      requires Valid()
      modifies this
      ensures Valid() && Current() == Next(old(Current()), Arrive(id))
      ensures stream == if id in old(waiting) then Some(old(waiting)[id]) else None
      ensures stream.Some? ==>
        && id !in waiting && waiting == old(waiting) - {id}
        && id !in old(joined) && joined == old(joined)[id := stream.value]
      ensures stream.None? ==> waiting == old(waiting) && joined == old(joined)
      ensures counter == old(counter) && held == old(held)
    {
      if id in waiting {
        JoinKeepsSound(Current(), id);
        stream := Some(waiting[id]);
        joined := joined[id := waiting[id]];
        waiting := waiting - {id};
      } else {
        stream := None;
      }
    }
  }
}
