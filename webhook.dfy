/** The current handler (`api_webhook.py`): `_async_handle_message_logic` for each
    received text message, `process_message_batch` for each batch task that wakes
    up, and `_run_rag_pipeline` for each flushed batch. The pure step functions say
    what one handler call issues and leaves behind; the class performs the same
    steps on its buffer table and on the conversation collection. */
module Webhook {
  import opened Types
  import opened Text
  import opened Labels
  import opened ChatHistory
  import opened Routing
  import opened Pipeline
  import opened Debounce

  /** What one received message issues and leaves behind. */
  datatype Step = Step(effects: seq<Effect>, registry: Registry, store: Store)

  /** `_async_handle_message_logic`. The reset deletes the history, then replies;
      the buffer entry is dropped only if the reply went through. Any other text is
      buffered, with a loading indicator when no batch task is sleeping. */
  function HandleMessageStep(env: Services, r: Registry, store: Store, u: UserId, text: string, token: Token): Step {
    if text == ResetSentinel then
      var effects := [DeleteHistory(u), Reply(token, ResetConfirmation)];
      Step(effects, if env.reply(token, ResetConfirmation) then Popped(r, u) else r, Deleted(store, u))
    else
      Step(if NeedsIndicator(r, u) then [LoadingIndicator(u)] else [], Appended(r, u, text, token), store)
  }

  /** What one batch task issues and leaves behind when it wakes up. */
  datatype BatchStep = BatchStep(registry: Registry, run: Run)

  /** `process_message_batch`: take the buffer, then run the pipeline on it. */
  function ProcessMessageBatchStep(env: Services, faq: map<string, string>, r: Registry, store: Store,
                                   id: TaskId, t1: int, t2: int): BatchStep
  {
    var f := Fired(r, id);
    match f.batch
    case None => BatchStep(r, Run([], store, None))
    case Some(b) => BatchStep(f.registry, RunRagPipeline(env, faq, store, b.user, b.snapshot, t1, t2))
  }

  /** The reset sentinel bypasses the buffer: the user's history is deleted, the one
      fixed confirmation is sent, no loading indicator is shown, and the buffered
      fragments are dropped (the entry is gone) without the sentinel being buffered.
      The scheduled task, if any, is not cancelled. */
  lemma ResetHandled(env: Services, r: Registry, store: Store, u: UserId, token: Token)
    ensures var s := HandleMessageStep(env, r, store, u, ResetSentinel, token);
            && s.effects == [DeleteHistory(u), Reply(token, ResetConfirmation)]
            && Turns(s.store, u) == []
            && (forall v :: v != u ==> Turns(s.store, v) == Turns(store, v))
            && s.registry.pending == r.pending
            && (env.reply(token, ResetConfirmation) ==> BufferOf(s.registry, u) == EmptyBuffer)
            && (!env.reply(token, ResetConfirmation) ==> s.registry == r)
            && (forall v :: v != u ==> BufferOf(s.registry, v) == BufferOf(r, v))
  {
  }

  /** Any other text is appended after the earlier fragments, its token becomes the
      newest, the sleeping task is cancelled and a fresh one scheduled; the history
      is not touched and the indicator is shown only when no task was sleeping. */
  lemma FragmentHandled(env: Services, r: Registry, store: Store, u: UserId, text: string, token: Token)
    requires Valid(r) && text != ResetSentinel
    ensures var s := HandleMessageStep(env, r, store, u, text, token);
            var b := BufferOf(r, u);
            && s.store == store
            && (s.effects == [LoadingIndicator(u)] <==> NeedsIndicator(r, u))
            && (s.effects == [] <==> !NeedsIndicator(r, u))
            && BufferOf(s.registry, u) == Buffer(b.messages + [text], Some(token), Some(r.next))
            && r.next in s.registry.pending && s.registry.pending[r.next] == u
            && (b.task.Some? ==> b.task.value !in s.registry.pending)
            && (forall v :: v != u ==> BufferOf(s.registry, v) == BufferOf(r, v))
  {
  }

  /** The ordinary messages of a burst, handled one after another. */
  function HandleAll(env: Services, r: Registry, store: Store, u: UserId, fs: seq<Fragment>): Registry {
    if fs == [] then r
    else
      var last := fs[|fs| - 1];
      HandleMessageStep(env, HandleAll(env, r, store, u, fs[..|fs| - 1]), store, u, last.text, last.token).registry
  }

  lemma {:induction false} HandleAllAppends(env: Services, r: Registry, store: Store, u: UserId, fs: seq<Fragment>)
    requires forall i :: 0 <= i < |fs| ==> fs[i].text != ResetSentinel
    ensures HandleAll(env, r, store, u, fs) == AppendAll(r, u, fs)
  {
    if fs != [] {
      HandleAllAppends(env, r, store, u, fs[..|fs| - 1]);
    }
  }

  /** End to end: a burst of ordinary messages from a user with nothing buffered is
      answered by the burst's newest task, as one query made of the burst's texts
      joined by spaces in arrival order, with the newest reply token. A burst into a
      non-empty buffer is covered by `Debounce.BurstThenFire`. */
  lemma BurstAnsweredOnce(env: Services, faq: map<string, string>, r: Registry, store: Store, u: UserId,
                          fs: seq<Fragment>, t1: int, t2: int)
    requires fs != [] && BufferOf(r, u).messages == []
    requires forall i :: 0 <= i < |fs| ==> fs[i].text != ResetSentinel
    ensures var r' := HandleAll(env, r, store, u, fs);
            var snap := Snapshot(Texts(fs), Some(fs[|fs| - 1].token));
            && Query(snap) == Join(" ", Texts(fs))
            && ProcessMessageBatchStep(env, faq, r', store, r'.next - 1, t1, t2).run ==
                 RunRagPipeline(env, faq, store, u, snap, t1, t2)
  {
    var r' := HandleAll(env, r, store, u, fs);
    var snap := Snapshot(Texts(fs), Some(fs[|fs| - 1].token));
    BurstBatch(env, r, store, u, fs);
    WokenTaskRuns(env, faq, r', store, r'.next - 1, Batch(u, snap), t1, t2);
  }

  /** The newest task of such a burst takes the whole burst with the newest token. */
  lemma BurstBatch(env: Services, r: Registry, store: Store, u: UserId, fs: seq<Fragment>)
    requires fs != [] && BufferOf(r, u).messages == []
    requires forall i :: 0 <= i < |fs| ==> fs[i].text != ResetSentinel
    ensures var r' := HandleAll(env, r, store, u, fs);
            Fired(r', r'.next - 1).batch == Some(Batch(u, Snapshot(Texts(fs), Some(fs[|fs| - 1].token))))
  {
    HandleAllAppends(env, r, store, u, fs);
    BurstThenFire(r, u, fs);
    assert BufferOf(r, u).messages + Texts(fs) == Texts(fs);
  }

  /** A task that takes a batch runs the pipeline on exactly that batch. */
  lemma WokenTaskRuns(env: Services, faq: map<string, string>, r: Registry, store: Store, id: TaskId, b: Batch,
                      t1: int, t2: int)
    requires Fired(r, id).batch == Some(b)
    ensures ProcessMessageBatchStep(env, faq, r, store, id, t1, t2).run == RunRagPipeline(env, faq, store, b.user, b.snapshot, t1, t2)
  {
  }

  /** Every earlier task of the burst wakes up to nothing. */
  lemma BurstEarlierTasksIdle(env: Services, faq: map<string, string>, r: Registry, store: Store, u: UserId,
                              fs: seq<Fragment>, t1: int, t2: int)
    requires fs != []
    requires forall i :: 0 <= i < |fs| ==> fs[i].text != ResetSentinel
    ensures var r' := HandleAll(env, r, store, u, fs);
            forall id :: r.next <= id < r'.next - 1 ==>
              ProcessMessageBatchStep(env, faq, r', store, id, t1, t2) == BatchStep(r', Run([], store, None))
  {
    var r' := HandleAll(env, r, store, u, fs);
    HandleAllAppends(env, r, store, u, fs);
    AppendAllBurst(r, u, fs);
    forall id | r.next <= id < r'.next - 1
      ensures ProcessMessageBatchStep(env, faq, r', store, id, t1, t2) == BatchStep(r', Run([], store, None))
    {
      CancelledTaskIdle(env, faq, r', store, id, t1, t2);
    }
  }

  /** A cancelled task wakes up to nothing: no effect, no change. */
  lemma CancelledTaskIdle(env: Services, faq: map<string, string>, r: Registry, store: Store, id: TaskId, t1: int, t2: int)
    requires id !in r.pending
    ensures ProcessMessageBatchStep(env, faq, r, store, id, t1, t2) == BatchStep(r, Run([], store, None))
  {
  }

  /** Every registry the handler reaches from `Initial` keeps the bookkeeping that
      `FragmentHandled` relies on: a received message preserves it... */
  lemma HandleMessageKeepsValid(env: Services, r: Registry, store: Store, u: UserId, text: string, token: Token)
    requires Valid(r)
    ensures Valid(HandleMessageStep(env, r, store, u, text, token).registry)
  {
    if text == ResetSentinel {
      PoppedValid(r, u);
    } else {
      AppendedValid(r, u, text, token);
    }
  }

  /** ...and so does a batch task waking up. */
  lemma ProcessMessageBatchKeepsValid(env: Services, faq: map<string, string>, r: Registry, store: Store,
                                      id: TaskId, t1: int, t2: int)
    requires Valid(r)
    ensures Valid(ProcessMessageBatchStep(env, faq, r, store, id, t1, t2).registry)
  {
    FiredValid(r, id);
  }

  /** The handler state: the buffer table, the sleeping batch tasks and the next
      task id, with the collection and the collaborators it works with. */
  class WebhookHandler {
    var buffers: map<UserId, Buffer>
    var pending: map<TaskId, UserId>
    var nextTask: TaskId
    const store: ConversationStore
    const env: Services
    const faq: map<string, string>

    function State(): Registry
      reads this
    {
      Registry(buffers, pending, nextTask)
    }

    /** Module start-up: an empty `USER_BUFFERS`, and `FAQ_CACHED_ANSWERS` built
        from the two promotion variables of the environment. */
    constructor (store: ConversationStore, env: Services, promotionSeLife: Option<string>, promotionInsure: Option<string>)
      ensures State() == Initial
      ensures this.store == store && this.env == env
      ensures this.faq == FaqCachedAnswers(promotionSeLife, promotionInsure)
    {
      buffers, pending, nextTask := map[], map[], 0;
      this.store, this.env := store, env;
      this.faq := FaqCachedAnswers(promotionSeLife, promotionInsure);
    }

    /** `_async_handle_message_logic(event)` for a text message. */
    method HandleMessage(u: UserId, text: string, token: Token) returns (effects: seq<Effect>)
      modifies this, store
      ensures Step(effects, State(), store.log) == HandleMessageStep(env, old(State()), old(store.log), u, text, token)
    {
      if text == ResetSentinel {
        DelChatHistory(store, u);
        effects := [DeleteHistory(u), Reply(token, ResetConfirmation)];
        if env.reply(token, ResetConfirmation) {
          buffers := buffers - {u};
        }
        return;
      }
      var buf := if u in buffers then buffers[u] else EmptyBuffer;
      var task := buf.task;
      effects := [];
      if task.None? || task.value !in pending {
        effects := [LoadingIndicator(u)];
      }
      buf := buf.(messages := buf.messages + [text], replyToken := Some(token));
      if task.Some? {
        pending := pending - {task.value};
      }
      buf := buf.(task := Some(nextTask));
      pending := pending[nextTask := u];
      nextTask := nextTask + 1;
      buffers := buffers[u := buf];
    }

    /** `process_message_batch(user_id)` once task `id` wakes up. */
    method ProcessMessageBatch(id: TaskId, t1: int, t2: int) returns (effects: seq<Effect>, result: Option<Answered>)
      modifies this, store
      ensures BatchStep(State(), Run(effects, store.log, result)) ==
                ProcessMessageBatchStep(env, faq, old(State()), old(store.log), id, t1, t2)
    {
      if id !in pending {
        return [], None;
      }
      var u := pending[id];
      var buf := if u in buffers then buffers[u] else EmptyBuffer;
      var snap := Snapshot(buf.messages, buf.replyToken);
      buffers := buffers[u := EmptyBuffer];
      pending := pending - {id};
      effects, result := RunRagPipeline(u, snap, t1, t2);
    }

    /** `_run_rag_pipeline(user_id, buffer_data)`. */
    method RunRagPipeline(u: UserId, snap: Snapshot, t1: int, t2: int) returns (effects: seq<Effect>, result: Option<Answered>)
      modifies store
      ensures Run(effects, store.log, result) == Pipeline.RunRagPipeline(env, faq, old(store.log), u, snap, t1, t2)
    {
      if snap.messages == [] || snap.replyToken.None? || snap.replyToken.value == "" {
        return [], None;
      }
      var query := Join(" ", snap.messages);
      var token := snap.replyToken.value;
      if query in faq {
        effects, result := Deliver(u, token, query, faq[query], OffTopic, t1, t2);
        return;
      }
      ghost var before := store.log;
      var fetched, state := store.GetConversationState(env.compact, u);
      effects := [FetchHistory(u)] + fetched;
      if state.None? {
        return effects, None;
      }
      var st := state.value;
      effects := effects + [Classify(query, st.history)];
      var raw := env.classify(query, st.history);
      if raw.None? {
        return effects, None;
      }
      var rest;
      rest, result := AnswerQuery(u, token, query, st, DecideSearchPath(raw.value), t1, t2);
      effects := effects + rest;
      ClassifiedRoute(env, u, token, query, FetchState(env.compact, before, u), t1, t2);
    }

    /** The run once the label is known: retrieval, answer, delivery. */
    method AnswerQuery(u: UserId, token: Token, query: string, st: ConversationState, decision: Route, t1: int, t2: int)
      returns (effects: seq<Effect>, result: Option<Answered>)
      modifies store
      ensures Run(effects, store.log, result) ==
                Answering(env, old(store.log), u, token, query, st, PlanRoute(decision, st.latestDecision), t1, t2)
    {
      var retrieved, context, hist, route := RetrieveContext(query, st, decision);
      effects := retrieved;
      if context.None? {
        return effects, None;
      }
      effects := effects + [Answer(query, context.value, hist)];
      var answer := env.answer(query, context.value, hist);
      if answer.None? {
        return effects, None;
      }
      var delivered;
      delivered, result := Deliver(u, token, query, answer.value, route, t1, t2);
      effects := effects + delivered;
    }

    /** The `if`/`elif` chain on the label: which search result is awaited, whether
        the history stays, and the label to persist. */
    method RetrieveContext(query: string, st: ConversationState, decision: Route)
      returns (effects: seq<Effect>, context: Option<string>, hist: Option<string>, route: Route)
      ensures var plan := PlanRoute(decision, st.latestDecision);
              && Retrieved(effects, context) == Retrieve(env, query, st.latestUser, plan.retrieval)
              && hist == (if plan.keepHistory then Some(st.history) else None)
              && route == plan.route
    {
      effects, context, hist, route := [], Some(""), Some(st.history), decision;
      if decision == InsuranceService {
        effects := [Search(query, ServiceSearch)];
        context := env.search(query, ServiceSearch);
      } else if decision == InsuranceProduct {
        effects := [Search(query, ProductSearch)];
        context := env.search(query, ProductSearch);
      } else if decision == ContinueConversation {
        if st.latestDecision != Some("OFF-TOPIC") {
          var service := st.latestDecision == Some("INSURANCE_SERVICE");
          route := if service then InsuranceService else InsuranceProduct;
          effects := [Condense(query, st.latestUser)];
          var sub := env.condense(query, st.latestUser);
          if sub.None? {
            return effects, None, hist, route;
          }
          var params := SearchParams(if service then 3 else 7, 0, service);
          effects := effects + [Search(sub.value, params)];
          context := env.search(sub.value, params);
        } else {
          route := OffTopic;
        }
      } else if decision == More {
        effects := [Search(query, MoreSearch)];
        context := env.search(query, MoreSearch);
      } else {
        hist := None;
      }
    }

    /** The reply, then the user record and the assistant record. */
    method Deliver(u: UserId, token: Token, query: string, answer: string, route: Route, t1: int, t2: int)
      returns (effects: seq<Effect>, result: Option<Answered>)
      modifies store
      ensures Run(effects, store.log, result) == Pipeline.Deliver(env, old(store.log), u, token, query, answer, route, t1, t2)
    {
      effects := [Reply(token, answer)];
      if !env.reply(token, answer) {
        return effects, None;
      }
      SaveChatHistory(store, u, User, query, t1, route.Name());
      SaveChatHistory(store, u, Assistant, answer, t2, route.Name());
      effects := effects + [SaveTurn(u, UserTurn(query, route, t1)), SaveTurn(u, AssistantTurn(answer, route, t2))];
      result := Some(Answered(answer, route));
    }
  }
}
