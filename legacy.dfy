/** The older synchronous handler (`INSURANCE_PROD_LINE_API.py`): each text message
    is handled on its own. The last ten records are read (and compacted above 2000
    characters), the classifier picks one of five labels, "RESET" clears the
    history, the service and product labels search their index for two results,
    and after the reply the query and the answer are saved with one timestamp and
    no label. */
module Legacy {
  import opened Types
  import opened Text
  import opened Labels
  import opened Formatting
  import opened ChatHistory

  /** `limit` of `get_chat_history`, `max_chars` of `summarize_text` and the default
      `top_k` of both retrieval helpers. */
  const LegacyHistoryLimit: nat := 10
  const LegacySummaryMaxChars: nat := 2000
  const LegacyTopK: nat := 2

  /** The collaborators of the older handler; each returns `None` when it raises.
      The two searches return the selected fields of their results. */
  datatype LegacyServices = LegacyServices(
    classify: (string, string) -> Option<string>,
    products: (string, nat) -> Option<seq<Product>>,
    services: (string, nat) -> Option<seq<ServiceItem>>,
    compact: string -> Option<string>,
    answer: (string, string, Option<string>) -> Option<string>,
    reply: (Token, string) -> bool)

  /** The single record `summarize_text` writes in place of the history. */
  function SummaryTurn(summary: string, t0: int): Turn {
    Turn(Assistant, summary, t0, None)
  }

  /** What `get_chat_history` issues, leaves in the collection and returns
      (`None` when it raised). */
  datatype History = History(effects: seq<Effect>, store: Store, text: Option<string>)

  /** `get_chat_history(user_id)` with `summarize_text(history_text, 2000, user_id)`;
      `t0` is the clock reading of the summary record. */
  function ChatHistoryOf(compact: string -> Option<string>, s: Store, u: UserId, t0: int): History {
    var text := HistoryText(Recent(Turns(s, u), LegacyHistoryLimit));
    if |text| <= LegacySummaryMaxChars then History([], s, Some(text))
    else
      match compact(text)
      case None => History([Compact(text)], s, None)
      case Some(summary) =>
        History([Compact(text), DeleteHistory(u), SaveTurn(u, SummaryTurn(summary, t0))],
                Saved(Deleted(s, u), u, SummaryTurn(summary, t0)), Some(summary))
  }

  /** Below the budget the history text of the last ten records comes back
      unchanged and nothing is written; only above it is anything written. */
  lemma SummarizeIdentityBelowBudget(compact: string -> Option<string>, s: Store, u: UserId, t0: int)
    ensures var text := HistoryText(Recent(Turns(s, u), LegacyHistoryLimit));
            var h := ChatHistoryOf(compact, s, u, t0);
            && (|text| <= LegacySummaryMaxChars <==> h.effects == [])
            && (|text| <= LegacySummaryMaxChars ==> h == History([], s, Some(text)))
            && (h.effects == [] ==> h.store == s)
  {
  }

  /** Above the budget, a summary that comes back replaces the whole history of the
      user by that one summary record; other users are untouched. */
  lemma CompactionLeavesOneSummary(compact: string -> Option<string>, s: Store, u: UserId, t0: int)
    requires |HistoryText(Recent(Turns(s, u), LegacyHistoryLimit))| > LegacySummaryMaxChars
    requires compact(HistoryText(Recent(Turns(s, u), LegacyHistoryLimit))).Some?
    ensures var summary := compact(HistoryText(Recent(Turns(s, u), LegacyHistoryLimit))).value;
            var h := ChatHistoryOf(compact, s, u, t0);
            && h.text == Some(summary)
            && Turns(h.store, u) == [SummaryTurn(summary, t0)]
            && (forall v :: v != u ==> Turns(h.store, v) == Turns(s, v))
  {
  }

  /** The routing table of the older handler (after "RESET" is handled): the
      search to run, if any, and whether the history reaches the answerer. */
  datatype LegacyPlan = LegacyPlan(search: Option<SearchParams>, keepHistory: bool)

  function LegacyPlanRoute(decision: Route): (p: LegacyPlan)
    // only the service and product labels search, each its own index, two results
    ensures p.search.Some? <==> decision == InsuranceService || decision == InsuranceProduct
    ensures p.search.Some? ==> p.search.value == SearchParams(LegacyTopK, 0, decision == InsuranceService)
    // the history is dropped for every label but the two searching ones and the continuation
    ensures p.keepHistory <==> decision == InsuranceService || decision == InsuranceProduct || decision == ContinueConversation
  {
    match decision
    case InsuranceService => LegacyPlan(Some(SearchParams(LegacyTopK, 0, true)), true)
    case InsuranceProduct => LegacyPlan(Some(SearchParams(LegacyTopK, 0, false)), true)
    case ContinueConversation => LegacyPlan(None, true)
    case _ => LegacyPlan(None, false)
  }

  /** The retrieved context: the rendered results joined by blank lines, `""` when
      the plan does not search, `None` when the search raised. */
  function LegacyContext(env: LegacyServices, query: string, search: Option<SearchParams>): Option<string> {
    match search
    case None => Some("")
    case Some(p) =>
      if p.service then
        match env.services(query, p.top)
        case None => None
        case Some(rs) => Some(ServiceContext(rs))
      else
        match env.products(query, p.top)
        case None => None
        case Some(rs) => Some(ProductContext(rs))
  }

  /** What one message issues, leaves in the collection and, if the reply went
      through, the text replied. */
  datatype Handled = Handled(effects: seq<Effect>, store: Store, replied: Option<string>)

  /** The user record and the assistant record: one timestamp, no label. */
  function LegacyUserTurn(query: string, t: int): Turn {
    Turn(User, query, t, None)
  }

  function LegacyAssistantTurn(answer: string, t: int): Turn {
    Turn(Assistant, answer, t, None)
  }

  /** The handler once the label is known and is not "RESET". */
  function LegacyAnswering(env: LegacyServices, s: Store, u: UserId, token: Token, query: string, history: string,
                           decision: Route, t: int): Handled
  {
    var plan := LegacyPlanRoute(decision);
    var searched := if plan.search.Some? then [Search(query, plan.search.value)] else [];
    var hist := if plan.keepHistory then Some(history) else None;
    match LegacyContext(env, query, plan.search)
    case None => Handled(searched, s, None)
    case Some(context) =>
      var asked := searched + [Answer(query, context, hist)];
      match env.answer(query, context, hist)
      case None => Handled(asked, s, None)
      case Some(answer) =>
        if !env.reply(token, answer) then Handled(asked + [Reply(token, answer)], s, None)
        else
          var ut, at := LegacyUserTurn(query, t), LegacyAssistantTurn(answer, t);
          Handled(asked + [Reply(token, answer), SaveTurn(u, ut), SaveTurn(u, at)],
                  Saved(Saved(s, u, ut), u, at), Some(answer))
  }

  /** The handler once the history text is in hand. */
  function LegacyClassified(env: LegacyServices, s: Store, u: UserId, token: Token, query: string, history: string,
                            t: int): Handled
  {
    var classified := [Classify(query, history)];
    match env.classify(query, history)
    case None => Handled(classified, s, None)
    case Some(raw) =>
      var rest := LegacyLabelled(env, s, u, token, query, history, LegacyDecideSearchPath(raw), t);
      Handled(classified + rest.effects, rest.store, rest.replied)
  }

  /** The handler once the label is known: "RESET" deletes the history and
      confirms; any other label goes on to the answer. */
  function LegacyLabelled(env: LegacyServices, s: Store, u: UserId, token: Token, query: string, history: string,
                          decision: Route, t: int): Handled
  {
    if decision == Reset then
      Handled([DeleteHistory(u), Reply(token, ResetConfirmation)], Deleted(s, u),
              if env.reply(token, ResetConfirmation) then Some(ResetConfirmation) else None)
    else
      LegacyAnswering(env, s, u, token, query, history, decision, t)
  }

  /** `handle_message(event)`; `t0` is the clock reading of a summary record and
      `t` the one of the two saved records. */
  function LegacyHandleMessageStep(env: LegacyServices, s: Store, u: UserId, query: string, token: Token,
                                   t0: int, t: int): Handled
  {
    var h := ChatHistoryOf(env.compact, s, u, t0);
    var fetched := [FetchHistory(u)] + h.effects;
    match h.text
    case None => Handled(fetched, h.store, None)
    case Some(history) =>
      var rest := LegacyClassified(env, h.store, u, token, query, history, t);
      Handled(fetched + rest.effects, rest.store, rest.replied)
  }

  /** A "RESET" label deletes every record of the user, replies the fixed
      confirmation as its last effect and saves nothing. */
  lemma LegacyResetClearsHistory(env: LegacyServices, s: Store, u: UserId, token: Token, query: string,
                                 history: string, t: int)
    requires env.classify(query, history).Some?
    requires LegacyDecideSearchPath(env.classify(query, history).value) == Reset
    ensures var r := LegacyClassified(env, s, u, token, query, history, t);
            && r.effects == [Classify(query, history), DeleteHistory(u), Reply(token, ResetConfirmation)]
            && Turns(r.store, u) == []
            && (forall v :: v != u ==> Turns(r.store, v) == Turns(s, v))
            && (r.replied.Some? <==> env.reply(token, ResetConfirmation))
  {
    var d := LegacyDecideSearchPath(env.classify(query, history).value);
    ResetLabelled(env, s, u, token, query, history, d, t);
    assert [Classify(query, history)] + [DeleteHistory(u), Reply(token, ResetConfirmation)] ==
           [Classify(query, history), DeleteHistory(u), Reply(token, ResetConfirmation)];
  }

  /** The "RESET" branch on its own, for any way of arriving at the label. */
  lemma ResetLabelled(env: LegacyServices, s: Store, u: UserId, token: Token, query: string, history: string,
                      decision: Route, t: int)
    requires decision == Reset
    ensures var r := LegacyLabelled(env, s, u, token, query, history, decision, t);
            && r.effects == [DeleteHistory(u), Reply(token, ResetConfirmation)]
            && r.store == Deleted(s, u)
            && (r.replied.Some? <==> env.reply(token, ResetConfirmation))
  {
  }

  /** The service and product labels search their own index for two results on the
      query itself, and the answerer gets those results rendered and joined; every
      other label answers on an empty context. A search that raises ends the
      effects there. */
  predicate LegacyRetrievalFollows(env: LegacyServices, es: seq<Effect>, decision: Route, query: string,
                                   history: string)
  {
    var hist := if LegacyPlanRoute(decision).keepHistory then Some(history) else None;
    if decision == InsuranceService then
      && |es| >= 1 && es[0] == Search(query, SearchParams(LegacyTopK, 0, true))
      && (env.services(query, LegacyTopK).None? ==> |es| == 1)
      && (env.services(query, LegacyTopK).Some? ==>
            |es| >= 2 && es[1] == Answer(query, ServiceContext(env.services(query, LegacyTopK).value), hist))
    else if decision == InsuranceProduct then
      && |es| >= 1 && es[0] == Search(query, SearchParams(LegacyTopK, 0, false))
      && (env.products(query, LegacyTopK).None? ==> |es| == 1)
      && (env.products(query, LegacyTopK).Some? ==>
            |es| >= 2 && es[1] == Answer(query, ProductContext(env.products(query, LegacyTopK).value), hist))
    else
      |es| >= 1 && es[0] == Answer(query, "", hist)
  }

  /** The older handler issues the search its table calls for and answers on the
      rendered results. */
  lemma LegacyAnsweringRetrieves(env: LegacyServices, s: Store, u: UserId, token: Token, query: string,
                                 history: string, decision: Route, t: int)
    ensures LegacyRetrievalFollows(env, LegacyAnswering(env, s, u, token, query, history, decision, t).effects,
                                   decision, query, history)
  {
    var plan := LegacyPlanRoute(decision);
    var searched := if plan.search.Some? then [Search(query, plan.search.value)] else [];
    var hist := if plan.keepHistory then Some(history) else None;
    var r := LegacyAnswering(env, s, u, token, query, history, decision, t);
    var c := LegacyContext(env, query, plan.search);
    if c.Some? {
      var asked := searched + [Answer(query, c.value, hist)];
      assert r.effects[..|asked|] == asked;
    } else {
      assert r.effects == searched;
    }
  }

  /** After a label other than "RESET" the handler follows its routing table: a
      search only for the service and product labels, with two results from the
      matching index on the query, the answer built on the rendered results, and
      the history withheld for every label but those two and the continuation. A
      run that delivers nothing saves nothing. */
  lemma LegacyRoutedRun(env: LegacyServices, s: Store, u: UserId, token: Token, query: string, history: string,
                        decision: Route, t: int)
    requires decision != Reset
    ensures var r := LegacyAnswering(env, s, u, token, query, history, decision, t);
            var plan := LegacyPlanRoute(decision);
            && (forall e :: e in r.effects && e.Search? ==> plan.search == Some(e.params) && e.params.top == LegacyTopK)
            && (forall e :: e in r.effects && e.Answer? ==>
                  e.chatHistory == (if plan.keepHistory then Some(history) else None)
                  && (plan.search.None? ==> e.context == ""))
            && (r.replied.None? ==> r.store == s && forall e :: e in r.effects ==> !e.SaveTurn?)
            && LegacyRetrievalFollows(env, r.effects, decision, query, history)
  {
    LegacyAnsweringRetrieves(env, s, u, token, query, history, decision, t);
    var plan := LegacyPlanRoute(decision);
    var searched := if plan.search.Some? then [Search(query, plan.search.value)] else [];
    var hist := if plan.keepHistory then Some(history) else None;
    var r := LegacyAnswering(env, s, u, token, query, history, decision, t);
    var c := LegacyContext(env, query, plan.search);
    if c.None? {
      assert r == Handled(searched, s, None);
    } else {
      var asked := searched + [Answer(query, c.value, hist)];
      assert plan.search.None? ==> c.value == "";
      var a := env.answer(query, c.value, hist);
      if a.None? {
        assert r == Handled(asked, s, None);
      } else if !env.reply(token, a.value) {
        assert r == Handled(asked + [Reply(token, a.value)], s, None);
      } else {
        var tail := [Reply(token, a.value), SaveTurn(u, LegacyUserTurn(query, t)), SaveTurn(u, LegacyAssistantTurn(a.value, t))];
        assert r.effects == asked + tail;
      }
    }
  }

  /** A delivered answer is followed by exactly two saves, the query first and the
      answer second, with the same timestamp and no label. */
  lemma LegacyDeliveredRun(env: LegacyServices, s: Store, u: UserId, token: Token, query: string, history: string,
                           decision: Route, t: int)
    requires decision != Reset
    ensures var r := LegacyAnswering(env, s, u, token, query, history, decision, t);
            r.replied.Some? ==>
              var a := r.replied.value;
              && |r.effects| >= 3
              && r.effects[|r.effects| - 3..] ==
                   [Reply(token, a), SaveTurn(u, LegacyUserTurn(query, t)), SaveTurn(u, LegacyAssistantTurn(a, t))]
              && r.store == Saved(Saved(s, u, LegacyUserTurn(query, t)), u, LegacyAssistantTurn(a, t))
  {
    var plan := LegacyPlanRoute(decision);
    var searched := if plan.search.Some? then [Search(query, plan.search.value)] else [];
    var hist := if plan.keepHistory then Some(history) else None;
    var r := LegacyAnswering(env, s, u, token, query, history, decision, t);
    var c := LegacyContext(env, query, plan.search);
    if c.Some? {
      var a := env.answer(query, c.value, hist);
      if a.Some? && env.reply(token, a.value) {
        var asked := searched + [Answer(query, c.value, hist)];
        var tail := [Reply(token, a.value), SaveTurn(u, LegacyUserTurn(query, t)), SaveTurn(u, LegacyAssistantTurn(a.value, t))];
        var es := asked + tail;
        assert r == Handled(es, Saved(Saved(s, u, LegacyUserTurn(query, t)), u, LegacyAssistantTurn(a.value, t)), a);
        assert es[|es| - 3..] == tail;
      }
    }
  }

  /** `summarize_text(text, 2000, user_id)` of the older handler. */
  method SummarizeText(store: ConversationStore, compact: string -> Option<string>, text: string, u: UserId, t0: int)
    returns (effects: seq<Effect>, summary: Option<string>)
    modifies store
    ensures |text| <= LegacySummaryMaxChars ==> effects == [] && summary == Some(text) && store.log == old(store.log)
    ensures |text| > LegacySummaryMaxChars ==>
              match compact(text)
              case None => effects == [Compact(text)] && summary == None && store.log == old(store.log)
              case Some(sum) =>
                && effects == [Compact(text), DeleteHistory(u), SaveTurn(u, SummaryTurn(sum, t0))]
                && summary == Some(sum)
                && store.log == Saved(Deleted(old(store.log), u), u, SummaryTurn(sum, t0))
  {
    if |text| <= LegacySummaryMaxChars {
      return [], Some(text);
    }
    effects := [Compact(text)];
    summary := compact(text);
    if summary.None? {
      return;
    }
    store.DeleteMany(u);
    LegacySaveChatHistory(store, u, Assistant, summary.value, t0);
    effects := effects + [DeleteHistory(u), SaveTurn(u, SummaryTurn(summary.value, t0))];
  }

  /** `save_chat_history(user_id, sender, message, timestamp)` of the older handler:
      one record, without a label. */
  method LegacySaveChatHistory(store: ConversationStore, u: UserId, sender: Sender, message: string, timestamp: int)
    modifies store
    ensures store.log == Saved(old(store.log), u, Turn(sender, message, timestamp, None))
  {
    store.InsertOne(u, Turn(sender, message, timestamp, None));
  }

  /** `get_chat_history(user_id)`. */
  method GetChatHistory(store: ConversationStore, compact: string -> Option<string>, u: UserId, t0: int)
    returns (effects: seq<Effect>, history: Option<string>)
    modifies store
    ensures History(effects, store.log, history) == ChatHistoryOf(compact, old(store.log), u, t0)
  {
    var msgs := store.FindRecent(u, LegacyHistoryLimit);
    var text := HistoryText(msgs);
    effects, history := SummarizeText(store, compact, text, u, t0);
  }

  /** `retrieve_insurance_service_context` or `retrieve_context` as the plan says. */
  method RetrieveLegacyContext(env: LegacyServices, query: string, search: Option<SearchParams>)
    returns (context: Option<string>)
    ensures context == LegacyContext(env, query, search)
  {
    if search.None? {
      return Some("");
    }
    var p := search.value;
    if p.service {
      var rs := env.services(query, p.top);
      if rs.None? {
        return None;
      }
      var lines := PrintResultsService(rs.value);
      context := Some(Join("\n\n", lines));
    } else {
      var rs := env.products(query, p.top);
      if rs.None? {
        return None;
      }
      var lines := PrintResults(rs.value);
      context := Some(Join("\n\n", lines));
    }
  }

  /** `handle_message(event)` of the older handler. */
  method LegacyHandleMessage(store: ConversationStore, env: LegacyServices, u: UserId, query: string, token: Token,
                             t0: int, t: int)
    returns (effects: seq<Effect>, replied: Option<string>)
    modifies store
    ensures Handled(effects, store.log, replied) == LegacyHandleMessageStep(env, old(store.log), u, query, token, t0, t)
  {
    var fetched, history := GetChatHistory(store, env.compact, u, t0);
    effects := [FetchHistory(u)] + fetched;
    if history.None? {
      return effects, None;
    }
    var rest;
    rest, replied := HandleClassified(store, env, u, token, query, history.value, t);
    effects := effects + rest;
  }

  method HandleClassified(store: ConversationStore, env: LegacyServices, u: UserId, token: Token, query: string,
                          history: string, t: int)
    returns (effects: seq<Effect>, replied: Option<string>)
    modifies store
    ensures Handled(effects, store.log, replied) == LegacyClassified(env, old(store.log), u, token, query, history, t)
  {
    effects := [Classify(query, history)];
    var raw := env.classify(query, history);
    if raw.None? {
      return effects, None;
    }
    var decision := LegacyDecideSearchPath(raw.value);
    if decision == Reset {
      store.DeleteMany(u);
      effects := effects + [DeleteHistory(u), Reply(token, ResetConfirmation)];
      replied := if env.reply(token, ResetConfirmation) then Some(ResetConfirmation) else None;
      return;
    }
    var rest;
    rest, replied := AnswerLegacy(store, env, u, token, query, history, decision, t);
    effects := effects + rest;
  }

  /** The `if`/`elif` chain after a label other than "RESET", the answer, the reply
      and the two saves. */
  method AnswerLegacy(store: ConversationStore, env: LegacyServices, u: UserId, token: Token, query: string,
                      history: string, decision: Route, t: int)
    returns (effects: seq<Effect>, replied: Option<string>)
    modifies store
    ensures Handled(effects, store.log, replied) == LegacyAnswering(env, old(store.log), u, token, query, history, decision, t)
  {
    var plan := LegacyPlanRoute(decision);
    var hist := if plan.keepHistory then Some(history) else None;
    effects := [];
    if plan.search.Some? {
      effects := [Search(query, plan.search.value)];
    }
    var context := RetrieveLegacyContext(env, query, plan.search);
    if context.None? {
      return effects, None;
    }
    effects := effects + [Answer(query, context.value, hist)];
    var answer := env.answer(query, context.value, hist);
    if answer.None? {
      return effects, None;
    }
    if !env.reply(token, answer.value) {
      return effects + [Reply(token, answer.value)], None;
    }
    LegacySaveChatHistory(store, u, User, query, t);
    LegacySaveChatHistory(store, u, Assistant, answer.value, t);
    effects := effects + [Reply(token, answer.value), SaveTurn(u, LegacyUserTurn(query, t)), SaveTurn(u, LegacyAssistantTurn(answer.value, t))];
    replied := Some(answer.value);
  }
}
