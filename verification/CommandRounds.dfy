/**
 A round of the command service is a sequence of the steps of CommandRuns, so everything proved of runs
 holds of the loop in CommandServiceObject.
 */
module CommandRounds {
  import opened Wrappers
  import P = Collections
  import opened CommandState
  import opened PostgresWorker
  import opened CommandService
  import opened CommandInvariant
  import opened CommandHandlers
  import opened CommandRuns

  /** Some steps lead from one state to the other. */
  ghost predicate Reaches(w: World, t: World) {
    P.Reaches(w, t, Follows)
  }

  lemma ReachesSelf(w: World)
    ensures Reaches(w, w)
  {
    P.ReachesSelf(w, Follows);
  }

  lemma ReachesTransitive(a: World, b: World, c: World)
    requires Reaches(a, b) && Reaches(b, c)
    ensures Reaches(a, c)
  {
    P.ReachesTransitive(a, b, c, Follows);
  }

  /** One step, from a state that satisfies the invariant to one that does. */
  lemma Advance(w: World, step: Step, t: World)
    requires Inv(w) && Enabled(w, step) && t == Next(w, step)
    ensures Reaches(w, t) && Inv(t)
  {
    hide Inv, Next, Enabled;
    NextKeeps(w, step);
    assert Follows(w, t);
    P.ReachesStep(w, t, Follows);
  }

  /** Every result is answered with a command id of its own that no command has had. */
  ghost predicate FreshAnswers(birth: map<Id, Origin>, results: seq<(nat, Value)>, surroundings: Surroundings) {
    && (forall k :: 0 <= k < |results| ==> surroundings.answers(results[k].0).freshId !in birth)
    && (forall k, l :: 0 <= k < l < |results| ==>
          surroundings.answers(results[k].0).freshId != surroundings.answers(results[l].0).freshId)
  }

  /** The ACK parsers admit the statuses of their command type only. */
  predicate Admitted(message: Message) {
    message.AckFromDevice? && message.ack.Some? ==> AckBelongs(message.kind, message.ack.value.status)
  }

  lemma ResultsReach(w: World, completions: seq<(nat, bool)>, messages: seq<Message>, now: Time, surroundings: Surroundings)
    returns (t: World)
    requires Inv(w) && FreshAnswers(w.birth, w.results, surroundings)
    ensures Reaches(w, t) && Inv(t) && t.results == []
    ensures Drained(w.service, w.results, completions, messages, now, surroundings) ==
            Drained(t.service, [], completions, messages, now, surroundings)
    decreases |w.results|
  {
    hide Inv, Reaches, Drained, Next, HandleResult, NewRecord;
    DrainedUnfolds(w.service, w.results, completions, messages, now, surroundings);
    if w.results == [] {
      ReachesSelf(w);
      return w;
    }
    var answers := surroundings.answers(w.results[0].0);
    var middle := AfterResult(w, now, answers);
    assert Next(w, Result(now, answers)) == middle by {
      ResultStep(w, now, answers);
    }
    Advance(w, Result(now, answers), middle);
    assert middle.birth.Keys <= w.birth.Keys + {answers.freshId};
    forall k | 0 <= k < |middle.results| ensures surroundings.answers(middle.results[k].0).freshId !in middle.birth {
      assert middle.results[k] == w.results[k + 1];
    }
    t := ResultsReach(middle, completions, messages, now, surroundings);
    ReachesTransitive(w, middle, t);
  }

  lemma ResultStep(w: World, now: Time, answers: Answers)
    requires |w.results| > 0 && answers.freshId !in w.birth
    ensures Enabled(w, Result(now, answers)) && Next(w, Result(now, answers)) == AfterResult(w, now, answers)
  {
  }

  lemma CompletionsReach(w: World, completions: seq<(nat, bool)>, messages: seq<Message>, now: Time,
                         surroundings: Surroundings)
    returns (t: World)
    requires Inv(w) && w.results == []
    ensures Reaches(w, t) && Inv(t) && t.results == []
    ensures Drained(w.service, [], completions, messages, now, surroundings) ==
            Drained(t.service, [], [], messages, now, surroundings)
    decreases |completions|
  {
    hide Inv, Reaches, Drained, HandleCompletion;
    DrainedUnfolds(w.service, [], completions, messages, now, surroundings);
    if completions == [] {
      ReachesSelf(w);
      return w;
    }
    var step := Completion(completions[0].0, completions[0].1, now);
    var middle := Next(w, step);
    Advance(w, step, middle);
    t := CompletionsReach(middle, completions[1..], messages, now, surroundings);
    ReachesTransitive(w, middle, t);
  }

  lemma MessagesReach(w: World, messages: seq<Message>, now: Time, surroundings: Surroundings)
    returns (t: World)
    requires Inv(w) && w.results == [] && forall k :: 0 <= k < |messages| ==> Admitted(messages[k])
    ensures Reaches(w, t) && Inv(t) && t.results == []
    ensures t.service == Drained(w.service, [], [], messages, now, surroundings)
    decreases |messages|
  {
    hide Inv, Reaches, Drained, HandleMessage;
    DrainedUnfolds(w.service, [], [], messages, now, surroundings);
    if messages == [] {
      ReachesSelf(w);
      return w;
    }
    assert Admitted(messages[0]);
    var step := Receive(messages[0], now, surroundings.gate(messages[0]));
    var middle := Next(w, step);
    Advance(w, step, middle);
    t := MessagesReach(middle, messages[1..], now, surroundings);
    ReachesTransitive(w, middle, t);
  }

  lemma ScansReach(w: World, ids: seq<Id>, now: Time, online: set<string>, accepts: set<Id>) returns (t: World)
    requires Inv(w)
    ensures Reaches(w, t) && Inv(t) && t.results == w.results
    ensures t.service == ScanEach(w.service, ids, now, online, accepts)
    decreases |ids|
  {
    hide Inv, Reaches, ScanOne;
    if ids == [] {
      ReachesSelf(w);
      return w;
    }
    var step := Scan(ids[0], now, TargetIn(w.service, ids[0], online), ids[0] in accepts);
    var middle := Next(w, step);
    Advance(w, step, middle);
    t := ScansReach(middle, ids[1..], now, online, accepts);
    ReachesTransitive(w, middle, t);
  }

  lemma FinishReaches(w: World, after: Service, id: Id, order: seq<Id>, now: Time, surroundings: Surroundings)
    returns (t: World)
    requires Inv(w) && FinishesRound(w.service, after, id, order, now, surroundings)
    ensures Reaches(w, t) && Inv(t) && t.results == w.results && t.service == after
  {
    hide Inv, Reaches, ScanEach, ScheduleCleanup;
    var retried := w;
    ReachesSelf(w);
    if id in w.service.deferred {
      retried := Next(w, Retry(id));
      Advance(w, Retry(id), retried);
    }
    assert retried.service == RetryDeferred(w.service, id);
    hide RetryDeferred;
    var cleaned := Next(retried, Step.Cleanup(now));
    Advance(retried, Step.Cleanup(now), cleaned);
    t := ScansReach(cleaned, order, now, surroundings.online, surroundings.accepts);
    ReachesTransitive(w, retried, cleaned);
    ReachesTransitive(w, cleaned, t);
  }

  /**
   Whatever a round of `CommandService.ProcessReady` leaves behind is a state some run passes through,
   so the theorems about runs hold of it.
   */
  lemma RoundIsARun(w: World, completions: seq<(nat, bool)>, messages: seq<Message>, now: Time, surroundings: Surroundings,
                    id: Id, order: seq<Id>, after: Service)
    requires Inv(w) && FreshAnswers(w.birth, w.results, surroundings)
    requires forall k :: 0 <= k < |messages| ==> Admitted(messages[k])
    requires FinishesRound(Drained(w.service, w.results, completions, messages, now, surroundings), after, id, order, now,
                           surroundings)
    ensures exists t :: Reaches(w, t) && Inv(t) && t.service == after && t.results == []
  {
    hide Inv, Reaches, Drained, FinishesRound;
    var a := ResultsReach(w, completions, messages, now, surroundings);
    var b := CompletionsReach(a, completions, messages, now, surroundings);
    var c := MessagesReach(b, messages, now, surroundings);
    var t := FinishReaches(c, after, id, order, now, surroundings);
    ReachesTransitive(w, a, b);
    ReachesTransitive(w, b, c);
    ReachesTransitive(w, c, t);
    assert Reaches(w, t) && Inv(t) && t.service == after && t.results == [];
  }
}
