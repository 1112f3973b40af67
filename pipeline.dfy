/** `_run_rag_pipeline` of the current handler, as the effects it issues and the
    collection it leaves behind for one flushed batch. Every exception is caught at
    the end of the pipeline, so a failing call simply ends the run where it failed:
    nothing after it (no reply, no save) happens. */
module Pipeline {
  import opened Types
  import opened Text
  import opened Labels
  import opened ChatHistory
  import opened Routing

  /** What a batch task hands to the pipeline: the buffered fragments and the
      newest reply token. */
  datatype Snapshot = Snapshot(messages: seq<string>, replyToken: Option<Token>)

  /** What a completed run returns: the answer sent and the label persisted. */
  datatype Answered = Answered(answer: string, route: Route)

  datatype Run = Run(effects: seq<Effect>, store: Store, result: Option<Answered>)

  /** `os.getenv(name) or default`: an unset or empty variable gives the default. */
  function EnvOr(v: Option<string>, default: string): string {
    if v.Some? && v.value != "" then v.value else default
  }

  /** The four quick-reply questions, which are the keys of `FAQ_CACHED_ANSWERS`. */
  const CustomerCareQuestion: string := "ศูนย์ดูแลลูกค้า"
  const SeLifePromotionQuestion: string := "โปรโมชั่น SE Life"
  const InsurePromotionQuestion: string := "โปรโมชั่น IN-SURE"
  const ThaiGroupQuestion: string := "Line Thai Group"

  /** The fixed answers and the fallback promotion texts of `FAQ_CACHED_ANSWERS`. */
  const CustomerCareAnswer: string := " Se Life : 02-255-5656 \n IN-SURE : 02-636-5656 \n เวลาทำการ : จันทร์ - ศุกร์ 08.30 - 17.00 น"
  const NoSeLifePromotion: string := "ยังไม่มีโปรโมชั่นสำหรับ SE Life ขณะนี้"
  const NoInsurePromotion: string := "ยังไม่มีโปรโมชั่นสำหรับ IN-SURE ขณะนี้"
  const ThaiGroupAnswer: string := "ที่เดียวจบ ครบทุกบริการของอาคเนย์ประกันชีวิต เช่น ดูข้อมูลประกัน แก้ไขข้อมูลกรมธรรม์ หรือ แจ้งเคลมประกัน \n เป็นเพื่อนกับ Thai Group ได้เลยที่นี่ https://lin.ee/OGWXtpN "

  /** `FAQ_CACHED_ANSWERS`, given the two promotion variables of the environment. */
  function FaqCachedAnswers(promotionSeLife: Option<string>, promotionInsure: Option<string>): map<string, string> {
    map[
      CustomerCareQuestion := CustomerCareAnswer,
      SeLifePromotionQuestion := EnvOr(promotionSeLife, NoSeLifePromotion),
      InsurePromotionQuestion := EnvOr(promotionInsure, NoInsurePromotion),
      ThaiGroupQuestion := ThaiGroupAnswer
    ]
  }

  /** The table answers exactly the four quick-reply questions; each promotion
      answer is its variable when that is set and non-empty, and the fixed
      "no promotion" text otherwise. */
  lemma FaqTable(promotionSeLife: Option<string>, promotionInsure: Option<string>)
    ensures var faq := FaqCachedAnswers(promotionSeLife, promotionInsure);
            && faq.Keys == {CustomerCareQuestion, SeLifePromotionQuestion, InsurePromotionQuestion, ThaiGroupQuestion}
            && faq[CustomerCareQuestion] == CustomerCareAnswer
            && faq[SeLifePromotionQuestion] ==
                 (if promotionSeLife.Some? && promotionSeLife.value != "" then promotionSeLife.value else NoSeLifePromotion)
            && faq[InsurePromotionQuestion] ==
                 (if promotionInsure.Some? && promotionInsure.value != "" then promotionInsure.value else NoInsurePromotion)
            && faq[ThaiGroupQuestion] == ThaiGroupAnswer
  {
    assert CustomerCareQuestion[0] != SeLifePromotionQuestion[0];
    assert CustomerCareQuestion[0] != InsurePromotionQuestion[0];
    assert CustomerCareQuestion[0] != ThaiGroupQuestion[0];
    assert SeLifePromotionQuestion[0] != ThaiGroupQuestion[0];
    assert InsurePromotionQuestion[0] != ThaiGroupQuestion[0];
    assert SeLifePromotionQuestion[10] != InsurePromotionQuestion[10];
  }

  /** The emptiness guard: fragments present and a non-empty reply token. */
  predicate Runnable(snap: Snapshot) {
    snap.messages != [] && snap.replyToken.Some? && snap.replyToken.value != ""
  }

  /** The coalesced query: the fragments in arrival order, joined by spaces. */
  function Query(snap: Snapshot): string {
    Join(" ", snap.messages)
  }

  /** The user record and the assistant record saved after a reply. */
  function UserTurn(query: string, route: Route, t1: int): Turn {
    Turn(User, query, t1, Some(route.Name()))
  }

  function AssistantTurn(answer: string, route: Route, t2: int): Turn {
    Turn(Assistant, answer, t2, Some(route.Name()))
  }

  /** Reply, then (if the reply went through) save the user record and the
      assistant record, both tagged with `route`. */
  function Deliver(env: Services, store: Store, u: UserId, token: Token, query: string, answer: string,
                   route: Route, t1: int, t2: int): Run
  {
    if !env.reply(token, answer) then Run([Reply(token, answer)], store, None)
    else
      var ut, at := UserTurn(query, route, t1), AssistantTurn(answer, route, t2);
      Run([Reply(token, answer), SaveTurn(u, ut), SaveTurn(u, at)],
          Saved(Saved(store, u, ut), u, at), Some(Answered(answer, route)))
  }

  /** The awaited retrieval of a plan: its effects and the context (`None` if a
      call raised). */
  datatype Retrieved = Retrieved(effects: seq<Effect>, context: Option<string>)

  function Retrieve(env: Services, query: string, latestUser: string, r: Retrieval): Retrieved {
    match r
    case NoRetrieval => Retrieved([], Some(""))
    case OnQuery(p) => Retrieved([Search(query, p)], env.search(query, p))
    case OnCondensed(p) =>
      match env.condense(query, latestUser)
      case None => Retrieved([Condense(query, latestUser)], None)
      case Some(sub) => Retrieved([Condense(query, latestUser), Search(sub, p)], env.search(sub, p))
  }

  /** The run once the conversation state is in hand and the classifier answered. */
  function Answering(env: Services, store: Store, u: UserId, token: Token, query: string,
                     st: ConversationState, plan: Plan, t1: int, t2: int): Run
  {
    var hist := if plan.keepHistory then Some(st.history) else None;
    var got := Retrieve(env, query, st.latestUser, plan.retrieval);
    match got.context
    case None => Run(got.effects, store, None)
    case Some(context) =>
      var asked := got.effects + [Answer(query, context, hist)];
      match env.answer(query, context, hist)
      case None => Run(asked, store, None)
      case Some(answer) =>
        var d := Deliver(env, store, u, token, query, answer, plan.route, t1, t2);
        Run(asked + d.effects, d.store, d.result)
  }

  /** The run past the FAQ check, given what `get_conversation_state` did:
      classify, route, answer. */
  function Routed(env: Services, u: UserId, token: Token, query: string, f: Fetched, t1: int, t2: int): Run {
    var fetched := [FetchHistory(u)] + f.effects;
    match f.state
    case None => Run(fetched, f.store, None)
    case Some(st) =>
      var classified := fetched + [Classify(query, st.history)];
      match env.classify(query, st.history)
      case None => Run(classified, f.store, None)
      case Some(raw) =>
        var rest := Answering(env, f.store, u, token, query, st, PlanRoute(DecideSearchPath(raw), st.latestDecision), t1, t2);
        Run(classified + rest.effects, rest.store, rest.result)
  }

  /** `_run_rag_pipeline(user_id, buffer_data)`; `t1` and `t2` are the clock
      readings taken before the two saves. */
  function RunRagPipeline(env: Services, faq: map<string, string>, store: Store, u: UserId, snap: Snapshot,
                          t1: int, t2: int): Run
  {
    if !Runnable(snap) then Run([], store, None)
    else if Query(snap) in faq then
      Deliver(env, store, u, snap.replyToken.value, Query(snap), faq[Query(snap)], OffTopic, t1, t2)
    else
      Routed(env, u, snap.replyToken.value, Query(snap), FetchState(env.compact, store, u), t1, t2)
  }

  /** A batch without fragments or without a reply token does nothing at all. */
  lemma EmptyBatchIsNoOp(env: Services, faq: map<string, string>, store: Store, u: UserId, snap: Snapshot, t1: int, t2: int)
    requires !Runnable(snap)
    ensures RunRagPipeline(env, faq, store, u, snap, t1, t2) == Run([], store, None)
  {
  }

  /** A query that is exactly an FAQ key is answered with the canned text: the
      history is not read, nothing is classified, searched or generated, and the
      records are saved under "OFF-TOPIC". */
  lemma FaqShortCircuit(env: Services, faq: map<string, string>, store: Store, u: UserId, snap: Snapshot, t1: int, t2: int)
    requires Runnable(snap) && Query(snap) in faq
    ensures var r := RunRagPipeline(env, faq, store, u, snap, t1, t2);
            var q, a, tok := Query(snap), faq[Query(snap)], snap.replyToken.value;
            && r.effects == (if env.reply(tok, a)
                             then [Reply(tok, a), SaveTurn(u, UserTurn(q, OffTopic, t1)), SaveTurn(u, AssistantTurn(a, OffTopic, t2))]
                             else [Reply(tok, a)])
            && (r.result.Some? ==> r.result.value == Answered(a, OffTopic))
            && (forall e :: e in r.effects ==> e.Reply? || e.SaveTurn?)
  {
  }

  /** No reply and no save among `es`. */
  predicate Quiet(es: seq<Effect>) {
    forall e :: e in es ==> !e.Reply? && !e.SaveTurn?
  }

  /** Every search among `es` uses the plan's parameters, and there is none when
      the plan retrieves nothing. */
  predicate SearchesFollow(es: seq<Effect>, plan: Plan) {
    forall e :: e in es && e.Search? ==> !plan.retrieval.NoRetrieval? && e.params == plan.retrieval.params
  }

  /** Every answerer call among `es` gets the history exactly when the plan keeps
      it, and an empty context when the plan retrieves nothing. */
  predicate AnswersFollow(es: seq<Effect>, plan: Plan, history: string) {
    forall e :: e in es && e.Answer? ==>
      && e.chatHistory == (if plan.keepHistory then Some(history) else None)
      && (plan.retrieval.NoRetrieval? ==> e.context == "")
  }

  /** The retrieval a plan calls for is issued first, on the right text, and the
      answerer then gets its result as the context: nothing to await gives an
      empty context; a search on the query itself; or the query condensed with the
      latest user messages and a search on that sub-query. A call that raises ends
      the effects there. */
  predicate RetrievalFollows(env: Services, es: seq<Effect>, plan: Plan, query: string, latestUser: string,
                             history: string)
  {
    var hist := if plan.keepHistory then Some(history) else None;
    match plan.retrieval
    case NoRetrieval => |es| >= 1 && es[0] == Answer(query, "", hist)
    case OnQuery(p) =>
      && |es| >= 1 && es[0] == Search(query, p)
      && (env.search(query, p).None? ==> es == [Search(query, p)])
      && (env.search(query, p).Some? ==> |es| >= 2 && es[1] == Answer(query, env.search(query, p).value, hist))
    case OnCondensed(p) =>
      && |es| >= 1 && es[0] == Condense(query, latestUser)
      && (env.condense(query, latestUser).None? ==> es == [Condense(query, latestUser)])
      && (env.condense(query, latestUser).Some? ==>
            var sub := env.condense(query, latestUser).value;
            && |es| >= 2 && es[1] == Search(sub, p)
            && (env.search(sub, p).None? ==> es == [Condense(query, latestUser), Search(sub, p)])
            && (env.search(sub, p).Some? ==> |es| >= 3 && es[2] == Answer(query, env.search(sub, p).value, hist)))
  }

  /** The answering run issues the plan's retrieval and answers on its result. */
  lemma AnsweringRetrieves(env: Services, store: Store, u: UserId, token: Token, query: string,
                           st: ConversationState, plan: Plan, t1: int, t2: int)
    ensures RetrievalFollows(env, Answering(env, store, u, token, query, st, plan, t1, t2).effects, plan,
                             query, st.latestUser, st.history)
  {
    var r := Answering(env, store, u, token, query, st, plan, t1, t2);
    var hist := if plan.keepHistory then Some(st.history) else None;
    var got := Retrieve(env, query, st.latestUser, plan.retrieval);
    if got.context.Some? {
      var asked := got.effects + [Answer(query, got.context.value, hist)];
      var a := env.answer(query, got.context.value, hist);
      if a.Some? {
        var d := Deliver(env, store, u, token, query, a.value, plan.route, t1, t2);
        assert r.effects == asked + d.effects;
      } else {
        assert r.effects == asked;
      }
      assert r.effects[..|asked|] == asked;
    } else {
      assert r.effects == got.effects;
    }
  }

  /** The end of a run: after a reply, the two saves; without a result, at most a
      failed reply as the last effect and no save. */
  predicate Ending(r: Run, store: Store, u: UserId, token: Token, query: string, route: Route, t1: int, t2: int) {
    && (r.result.Some? ==>
          var a := r.result.value.answer;
          && r.result.value.route == route
          && |r.effects| >= 3
          && r.effects[|r.effects| - 3..] ==
               [Reply(token, a), SaveTurn(u, UserTurn(query, route, t1)), SaveTurn(u, AssistantTurn(a, route, t2))]
          && Quiet(r.effects[..|r.effects| - 3])
          && r.store == Saved(Saved(store, u, UserTurn(query, route, t1)), u, AssistantTurn(a, route, t2)))
    && (r.result.None? ==>
          && (forall e :: e in r.effects ==> !e.SaveTurn?)
          && (Quiet(r.effects) || (r.effects != [] && r.effects[|r.effects| - 1].Reply? && Quiet(r.effects[..|r.effects| - 1]))))
  }

  lemma FollowAppend(a: seq<Effect>, b: seq<Effect>, plan: Plan, history: string)
    requires SearchesFollow(a, plan) && AnswersFollow(a, plan, history)
    requires forall e :: e in b ==> !e.Search? && !e.Answer?
    ensures SearchesFollow(a + b, plan) && AnswersFollow(a + b, plan, history)
  {
  }

  lemma RetrieveShape(env: Services, query: string, latestUser: string, plan: Plan)
    ensures var got := Retrieve(env, query, latestUser, plan.retrieval);
            && Quiet(got.effects)
            && SearchesFollow(got.effects, plan)
            && (forall e :: e in got.effects ==> !e.Answer?)
            && (plan.retrieval.NoRetrieval? ==> got == Retrieved([], Some("")))
  {
  }

  lemma DeliverShape(env: Services, store: Store, u: UserId, token: Token, query: string, answer: string,
                     route: Route, t1: int, t2: int)
    ensures var d := Deliver(env, store, u, token, query, answer, route, t1, t2);
            && Ending(d, store, u, token, query, route, t1, t2)
            && (d.result.Some? ==> d.result.value.answer == answer)
            && (d.result.None? ==> d == Run([Reply(token, answer)], store, None))
            && (forall e :: e in d.effects ==> e.Reply? || e.SaveTurn?)
  {
    var d := Deliver(env, store, u, token, query, answer, route, t1, t2);
    var ut, at := UserTurn(query, route, t1), AssistantTurn(answer, route, t2);
    if !env.reply(token, answer) {
      assert d.effects == [Reply(token, answer)];
      assert Quiet(d.effects[..0]);
    } else {
      assert d.effects == [Reply(token, answer), SaveTurn(u, ut), SaveTurn(u, at)];
      assert Quiet(d.effects[..0]);
      assert d.effects[0..] == d.effects;
    }
  }

  /** Facts about the tail of a run that reached the answerer: it ends as
      `Ending` says, saves under the plan's label, leaves the collection alone
      when it does not complete, and calls search and answerer as the plan says. */
  lemma AnsweringShape(env: Services, store: Store, u: UserId, token: Token, query: string,
                       st: ConversationState, plan: Plan, t1: int, t2: int)
    ensures var r := Answering(env, store, u, token, query, st, plan, t1, t2);
            && Ending(r, store, u, token, query, plan.route, t1, t2)
            && (r.result.None? ==> r.store == store)
            && SearchesFollow(r.effects, plan)
            && AnswersFollow(r.effects, plan, st.history)
            && RetrievalFollows(env, r.effects, plan, query, st.latestUser, st.history)
  {
    AnsweringRetrieves(env, store, u, token, query, st, plan, t1, t2);
    var r := Answering(env, store, u, token, query, st, plan, t1, t2);
    var hist := if plan.keepHistory then Some(st.history) else None;
    var got := Retrieve(env, query, st.latestUser, plan.retrieval);
    RetrieveShape(env, query, st.latestUser, plan);
    if got.context.Some? {
      var context := got.context.value;
      var asked := got.effects + [Answer(query, context, hist)];
      assert Quiet(asked) && SearchesFollow(asked, plan) && AnswersFollow(asked, plan, st.history);
      var a := env.answer(query, context, hist);
      if a.Some? {
        AskedThenDelivered(env, store, u, token, query, a.value, plan.route, t1, t2, asked, plan, st.history);
      }
    }
  }

  /** The answering run searches and calls the answerer only as the plan says. */
  lemma AnsweringFollows(env: Services, store: Store, u: UserId, token: Token, query: string,
                         st: ConversationState, plan: Plan, t1: int, t2: int)
    ensures var r := Answering(env, store, u, token, query, st, plan, t1, t2);
            SearchesFollow(r.effects, plan) && AnswersFollow(r.effects, plan, st.history)
  {
    AnsweringShape(env, store, u, token, query, st, plan, t1, t2);
  }

  /** The answering run ends with the reply and the two saves under the plan's
      label, or saves nothing and leaves the collection alone. */
  lemma AnsweringEnds(env: Services, store: Store, u: UserId, token: Token, query: string,
                      st: ConversationState, plan: Plan, t1: int, t2: int)
    ensures var r := Answering(env, store, u, token, query, st, plan, t1, t2);
            Ending(r, store, u, token, query, plan.route, t1, t2) && (r.result.None? ==> r.store == store)
  {
    AnsweringShape(env, store, u, token, query, st, plan, t1, t2);
  }

  /** The effects before the answer are followed by a delivery. */
  lemma AskedThenDelivered(env: Services, store: Store, u: UserId, token: Token, query: string, answer: string,
                           route: Route, t1: int, t2: int, asked: seq<Effect>, plan: Plan, history: string)
    requires Quiet(asked) && SearchesFollow(asked, plan) && AnswersFollow(asked, plan, history)
    ensures var d := Deliver(env, store, u, token, query, answer, route, t1, t2);
            var r := Run(asked + d.effects, d.store, d.result);
            && Ending(r, store, u, token, query, route, t1, t2)
            && (r.result.None? ==> r.store == store)
            && SearchesFollow(r.effects, plan)
            && AnswersFollow(r.effects, plan, history)
  {
    var d := Deliver(env, store, u, token, query, answer, route, t1, t2);
    var r := Run(asked + d.effects, d.store, d.result);
    DeliverShape(env, store, u, token, query, answer, route, t1, t2);
    FollowAppend(asked, d.effects, plan, history);
    if d.result.Some? {
      assert r.effects[|r.effects| - 3..] == d.effects;
      assert r.effects[..|r.effects| - 3] == asked;
    } else {
      assert r.effects[..|r.effects| - 1] == asked;
    }
  }

  /** Quiet effects in front of a run do not change how it ends. */
  lemma EndingAfter(pre: seq<Effect>, r: Run, store: Store, u: UserId, token: Token, query: string,
                    route: Route, t1: int, t2: int)
    requires Quiet(pre) && Ending(r, store, u, token, query, route, t1, t2)
    ensures Ending(Run(pre + r.effects, r.store, r.result), store, u, token, query, route, t1, t2)
  {
    var es := pre + r.effects;
    if r.result.Some? {
      assert es[|es| - 3..] == r.effects[|r.effects| - 3..];
      assert es[..|es| - 3] == pre + r.effects[..|r.effects| - 3];
    } else if !Quiet(r.effects) {
      assert es[|es| - 1] == r.effects[|r.effects| - 1];
      assert es[..|es| - 1] == pre + r.effects[..|r.effects| - 1];
    }
  }

  /** A run that is `rest` behind quiet effects ends as `rest` does. */
  lemma PrefixedEnding(r: Run, pre: seq<Effect>, rest: Run, store: Store, u: UserId, token: Token, query: string,
                       route: Route, t1: int, t2: int)
    requires r == Run(pre + rest.effects, rest.store, rest.result)
    requires Quiet(pre) && Ending(rest, store, u, token, query, route, t1, t2)
    requires rest.result.None? ==> rest.store == store
    ensures Ending(r, store, u, token, query, route, t1, t2) && (r.result.None? ==> r.store == store)
  {
    EndingAfter(pre, rest, store, u, token, query, route, t1, t2);
  }

  /** Past a successful fetch and classification, the run is those two effects
      followed by the answering run. */
  lemma ClassifiedRoute(env: Services, u: UserId, token: Token, query: string, f: Fetched, t1: int, t2: int)
    requires f.state.Some? && f.effects == []
    requires env.classify(query, f.state.value.history).Some?
    ensures var st := f.state.value;
            var plan := PlanRoute(DecideSearchPath(env.classify(query, st.history).value), st.latestDecision);
            var rest := Answering(env, f.store, u, token, query, st, plan, t1, t2);
            Routed(env, u, token, query, f, t1, t2) ==
              Run([FetchHistory(u), Classify(query, st.history)] + rest.effects, rest.store, rest.result)
  {
    var st := f.state.value;
    assert [FetchHistory(u)] + f.effects + [Classify(query, st.history)] == [FetchHistory(u), Classify(query, st.history)];
  }

  /** The run past the FAQ check once the state is in hand and classified: it
      follows the routing table, issuing the plan's retrieval on the right text and
      answering on its result. */
  lemma ClassifiedShape(env: Services, u: UserId, token: Token, query: string, f: Fetched, t1: int, t2: int)
    requires f.state.Some? && f.effects == []
    requires env.classify(query, f.state.value.history).Some?
    ensures var r := Routed(env, u, token, query, f, t1, t2);
            var st := f.state.value;
            var plan := PlanRoute(DecideSearchPath(env.classify(query, st.history).value), st.latestDecision);
            && |r.effects| >= 2 && r.effects[..2] == [FetchHistory(u), Classify(query, st.history)]
            && SearchesFollow(r.effects, plan)
            && AnswersFollow(r.effects, plan, st.history)
            && RetrievalFollows(env, r.effects[2..], plan, query, st.latestUser, st.history)
  {
    ClassifiedFollows(env, u, token, query, f, t1, t2);
    ClassifiedRetrieves(env, u, token, query, f, t1, t2);
  }

  /** The searches and answerer calls of such a run, as the plan says. */
  lemma ClassifiedFollows(env: Services, u: UserId, token: Token, query: string, f: Fetched, t1: int, t2: int)
    requires f.state.Some? && f.effects == []
    requires env.classify(query, f.state.value.history).Some?
    ensures var r := Routed(env, u, token, query, f, t1, t2);
            var st := f.state.value;
            var plan := PlanRoute(DecideSearchPath(env.classify(query, st.history).value), st.latestDecision);
            && |r.effects| >= 2 && r.effects[..2] == [FetchHistory(u), Classify(query, st.history)]
            && SearchesFollow(r.effects, plan)
            && AnswersFollow(r.effects, plan, st.history)
  {
    var st := f.state.value;
    var plan := PlanRoute(DecideSearchPath(env.classify(query, st.history).value), st.latestDecision);
    var rest := Answering(env, f.store, u, token, query, st, plan, t1, t2);
    AnsweringFollows(env, f.store, u, token, query, st, plan, t1, t2);
    ClassifiedRoute(env, u, token, query, f, t1, t2);
    PrefixedFollows(Routed(env, u, token, query, f, t1, t2).effects, [FetchHistory(u), Classify(query, st.history)],
                    rest.effects, plan, st.history);
  }

  /** The retrieval of such a run, right after the fetch and the classification. */
  lemma ClassifiedRetrieves(env: Services, u: UserId, token: Token, query: string, f: Fetched, t1: int, t2: int)
    requires f.state.Some? && f.effects == []
    requires env.classify(query, f.state.value.history).Some?
    ensures var r := Routed(env, u, token, query, f, t1, t2);
            var st := f.state.value;
            var plan := PlanRoute(DecideSearchPath(env.classify(query, st.history).value), st.latestDecision);
            |r.effects| >= 2 && RetrievalFollows(env, r.effects[2..], plan, query, st.latestUser, st.history)
  {
    var st := f.state.value;
    var plan := PlanRoute(DecideSearchPath(env.classify(query, st.history).value), st.latestDecision);
    var rest := Answering(env, f.store, u, token, query, st, plan, t1, t2);
    AnsweringRetrieves(env, f.store, u, token, query, st, plan, t1, t2);
    ClassifiedRoute(env, u, token, query, f, t1, t2);
    var pre := [FetchHistory(u), Classify(query, st.history)];
    assert (pre + rest.effects)[2..] == rest.effects;
  }

  /** Two effects other than searches and answers in front of `es` keep the
      search and answer facts. */
  lemma PrefixedFollows(r: seq<Effect>, pre: seq<Effect>, es: seq<Effect>, plan: Plan, history: string)
    requires r == pre + es
    requires |pre| == 2 && forall e :: e in pre ==> !e.Search? && !e.Answer?
    requires SearchesFollow(es, plan) && AnswersFollow(es, plan, history)
    ensures |r| >= 2 && r[..2] == pre
    ensures SearchesFollow(r, plan) && AnswersFollow(r, plan, history)
  {
    assert r[..2] == pre;
    forall e | e in r ensures e in pre || e in es {
    }
  }

  /** How such a run ends: a completed one with the reply and the two saves under
      the plan's label, one that did not complete with nothing saved and the
      collection as the fetch left it. */
  lemma ClassifiedEnding(env: Services, u: UserId, token: Token, query: string, f: Fetched, t1: int, t2: int)
    requires f.state.Some? && f.effects == []
    requires env.classify(query, f.state.value.history).Some?
    ensures var r := Routed(env, u, token, query, f, t1, t2);
            var st := f.state.value;
            var plan := PlanRoute(DecideSearchPath(env.classify(query, st.history).value), st.latestDecision);
            && Ending(r, f.store, u, token, query, plan.route, t1, t2)
            && (r.result.None? ==> r.store == f.store)
  {
    var st := f.state.value;
    var plan := PlanRoute(DecideSearchPath(env.classify(query, st.history).value), st.latestDecision);
    var rest := Answering(env, f.store, u, token, query, st, plan, t1, t2);
    AnsweringEnds(env, f.store, u, token, query, st, plan, t1, t2);
    ClassifiedRoute(env, u, token, query, f, t1, t2);
    PrefixedEnding(Routed(env, u, token, query, f, t1, t2), [FetchHistory(u), Classify(query, st.history)], rest,
                   f.store, u, token, query, plan.route, t1, t2);
  }

  /** A completed run replied exactly once and then saved exactly two records, the
      user's query first and the answer second, both tagged with the persisted
      label, which is never "CONTINUE CONVERSATION"; the collection is the old one
      plus those two records. */
  lemma CompletedRun(env: Services, faq: map<string, string>, store: Store, u: UserId, snap: Snapshot, t1: int, t2: int)
    requires RunRagPipeline(env, faq, store, u, snap, t1, t2).result.Some?
    ensures Runnable(snap)
    ensures var r := RunRagPipeline(env, faq, store, u, snap, t1, t2);
            var a, route := r.result.value.answer, r.result.value.route;
            var ut, at := UserTurn(Query(snap), route, t1), AssistantTurn(a, route, t2);
            && |r.effects| >= 3
            && r.effects[|r.effects| - 3..] == [Reply(snap.replyToken.value, a), SaveTurn(u, ut), SaveTurn(u, at)]
            && Quiet(r.effects[..|r.effects| - 3])
            && r.store == Saved(Saved(store, u, ut), u, at)
            && route != ContinueConversation
  {
    var r := RunRagPipeline(env, faq, store, u, snap, t1, t2);
    var tok, q := snap.replyToken.value, Query(snap);
    if q in faq {
      assert r == Deliver(env, store, u, tok, q, faq[q], OffTopic, t1, t2);
      DeliverShape(env, store, u, tok, q, faq[q], OffTopic, t1, t2);
    } else {
      var f := FetchState(env.compact, store, u);
      assert r == Routed(env, u, tok, q, f, t1, t2);
      RoutedCompleted(env, u, tok, q, f, t1, t2);
    }
    assert Ending(r, store, u, tok, q, r.result.value.route, t1, t2);
  }

  /** `CompletedRun` past the FAQ check: a completed run read a state and ends as
      `Ending` says, under a label other than the continuation. */
  lemma RoutedCompleted(env: Services, u: UserId, tok: Token, q: string, f: Fetched, t1: int, t2: int)
    requires Routed(env, u, tok, q, f, t1, t2).result.Some?
    requires f.state.Some? ==> f.effects == []
    ensures f.state.Some?
    ensures var r := Routed(env, u, tok, q, f, t1, t2);
            && Ending(r, f.store, u, tok, q, r.result.value.route, t1, t2)
            && r.result.value.route != ContinueConversation
  {
    ClassifiedEnding(env, u, tok, q, f, t1, t2);
  }

  /** A run that did not complete saved nothing and replied at most once, as its
      last effect; its only possible change to the collection is the deletion done
      by an oversized history. */
  lemma AbortedRun(env: Services, faq: map<string, string>, store: Store, u: UserId, snap: Snapshot, t1: int, t2: int)
    requires RunRagPipeline(env, faq, store, u, snap, t1, t2).result.None?
    ensures var r := RunRagPipeline(env, faq, store, u, snap, t1, t2);
            && (forall e :: e in r.effects ==> !e.SaveTurn?)
            && (Quiet(r.effects) || (r.effects[|r.effects| - 1].Reply? && Quiet(r.effects[..|r.effects| - 1])))
            && (r.store == store || r.store == Deleted(store, u))
  {
    if Runnable(snap) {
      var tok := snap.replyToken.value;
      if Query(snap) in faq {
        DeliverShape(env, store, u, tok, Query(snap), faq[Query(snap)], OffTopic, t1, t2);
      } else {
        var f := FetchState(env.compact, store, u);
        FetchQuiet(env.compact, store, u);
        assert RunRagPipeline(env, faq, store, u, snap, t1, t2) == Routed(env, u, tok, Query(snap), f, t1, t2);
        RoutedAborted(env, store, u, tok, Query(snap), f, t1, t2);
      }
    }
  }

  /** Reading the conversation state neither replies nor saves. */
  lemma FetchQuiet(compact: string -> Option<string>, s: Store, u: UserId)
    ensures Quiet(FetchState(compact, s, u).effects)
  {
  }

  /** `AbortedRun` past the FAQ check, for any outcome of the state read that
      issues nothing loud and at most deletes the user's records. */
  lemma RoutedAborted(env: Services, store: Store, u: UserId, tok: Token, q: string, f: Fetched, t1: int, t2: int)
    requires Routed(env, u, tok, q, f, t1, t2).result.None?
    requires Quiet(f.effects)
    requires f.state.Some? ==> f.store == store && f.effects == []
    requires f.store == store || f.store == Deleted(store, u)
    ensures var r := Routed(env, u, tok, q, f, t1, t2);
            && (forall e :: e in r.effects ==> !e.SaveTurn?)
            && (Quiet(r.effects) || (r.effects[|r.effects| - 1].Reply? && Quiet(r.effects[..|r.effects| - 1])))
            && (r.store == store || r.store == Deleted(store, u))
  {
    if f.state.None? {
      assert Routed(env, u, tok, q, f, t1, t2) == Run([FetchHistory(u)] + f.effects, f.store, None);
      assert Quiet([FetchHistory(u)] + f.effects);
    } else if env.classify(q, f.state.value.history).None? {
      assert Routed(env, u, tok, q, f, t1, t2) == Run([FetchHistory(u), Classify(q, f.state.value.history)], store, None);
    } else {
      ClassifiedEnding(env, u, tok, q, f, t1, t2);
    }
  }

  /** Once the history is read and classified, the run follows the routing table:
      it searches only with the plan's parameters, passes the history to the
      answerer only when the plan keeps it, and persists the plan's label. */
  lemma RoutedRun(env: Services, faq: map<string, string>, store: Store, u: UserId, snap: Snapshot, t1: int, t2: int,
                  st: ConversationState, raw: string)
    requires Runnable(snap) && Query(snap) !in faq
    requires FetchState(env.compact, store, u).state == Some(st)
    requires env.classify(Query(snap), st.history) == Some(raw)
    ensures var r := RunRagPipeline(env, faq, store, u, snap, t1, t2);
            var plan := PlanRoute(DecideSearchPath(raw), st.latestDecision);
            && |r.effects| >= 2
            && r.effects[..2] == [FetchHistory(u), Classify(Query(snap), st.history)]
            && (r.result.Some? ==> r.result.value.route == plan.route)
            && SearchesFollow(r.effects, plan)
            && AnswersFollow(r.effects, plan, st.history)
            && RetrievalFollows(env, r.effects[2..], plan, Query(snap), st.latestUser, st.history)
  {
    ClassifiedShape(env, u, snap.replyToken.value, Query(snap), FetchState(env.compact, store, u), t1, t2);
    ClassifiedEnding(env, u, snap.replyToken.value, Query(snap), FetchState(env.compact, store, u), t1, t2);
  }

  /** An oversized history is deleted and the run then ends: the user receives no
      reply and nothing is saved, so the conversation is lost. */
  lemma OversizedHistoryAbortsRun(env: Services, faq: map<string, string>, store: Store, u: UserId, snap: Snapshot,
                                  t1: int, t2: int)
    requires Runnable(snap) && Query(snap) !in faq
    requires Compacted(env.compact, Recent(Turns(store, u), HistoryLimit))
    ensures var r := RunRagPipeline(env, faq, store, u, snap, t1, t2);
            && r.result.None?
            && r.store == Deleted(store, u)
            && Turns(r.store, u) == []
            && (forall e :: e in r.effects ==> !e.Reply? && !e.SaveTurn?)
  {
  }
}
