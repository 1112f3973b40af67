/** The conversation collection and the state derived from it
    (`utils/chat_history_func.py`, with the history compaction of `summarize_text`
    in `utils/rag_func.py`). The collection is a map from user id to that user's
    records in insertion order; records are assumed to be inserted in timestamp
    order, so "sorted by timestamp" is insertion order. */
module ChatHistory {
  import opened Types
  import opened Text

  type Store = map<UserId, seq<Turn>>

  /** `history_limit` and `summary_max_chars` of `get_conversation_state`. */
  const HistoryLimit: nat := 20
  const SummaryMaxChars: nat := 3500

  /** All records of one user, oldest first. */
  function Turns(s: Store, u: UserId): seq<Turn> {
    if u in s then s[u] else []
  }

  /** The collection after `insert_one` of record `t` for `u`. */
  function Saved(s: Store, u: UserId, t: Turn): (r: Store)
    ensures Turns(r, u) == Turns(s, u) + [t]
    ensures forall v :: v != u ==> Turns(r, v) == Turns(s, v)
  {
    s[u := Turns(s, u) + [t]]
  }

  /** The collection after `delete_many({"user_id": u})`. */
  function Deleted(s: Store, u: UserId): (r: Store)
    ensures Turns(r, u) == []
    ensures forall v :: v != u ==> Turns(r, v) == Turns(s, v)
  {
    s - {u}
  }

  /** The `n` most recent records, back in chronological order. */
  function Recent(ts: seq<Turn>, n: nat): (r: seq<Turn>)
    ensures |r| == if |ts| <= n then |ts| else n
    ensures r == ts[|ts| - |r|..]
  {
    if |ts| <= n then ts else ts[|ts| - n..]
  }

  /** One history line: `"sender: message"`. */
  function Line(t: Turn): string {
    t.sender.Name() + ": " + t.message
  }

  function Lines(ts: seq<Turn>): (r: seq<string>)
    ensures |r| == |ts|
    ensures forall i :: 0 <= i < |ts| ==> r[i] == Line(ts[i])
  {
    if ts == [] then [] else [Line(ts[0])] + Lines(ts[1..])
  }

  /** The raw history text: one line per record, joined by newlines. */
  function HistoryText(ts: seq<Turn>): string {
    Join("\n", Lines(ts))
  }

  /** The messages of the records written by the user, in order. */
  function UserMessages(ts: seq<Turn>): seq<string> {
    if ts == [] then []
    else (if ts[0].sender == User then [ts[0].message] else []) + UserMessages(ts[1..])
  }

  /** `user_msgs[-2:] if len(user_msgs) >= 2 else user_msgs`: both branches are the
      last (at most) two messages. */
  function LastTwo(xs: seq<string>): (r: seq<string>)
    ensures |r| == if |xs| < 2 then |xs| else 2
    ensures r == xs[|xs| - |r|..]
  {
    if |xs| >= 2 then xs[|xs| - 2..] else xs
  }

  /** The triple returned by `get_conversation_state`. */
  datatype ConversationState = ConversationState(history: string, latestDecision: Option<string>, latestUser: string)

  /** The state derived from the recent records, before any compaction. */
  function Derive(recent: seq<Turn>): ConversationState {
    if recent == [] then ConversationState("", None, "")
    else ConversationState(HistoryText(recent), recent[|recent| - 1].pathDecision,
                           Join("\n", LastTwo(UserMessages(recent))))
  }

  /** What `get_conversation_state` issues, leaves in the collection and returns;
      `state` is `None` when it raised. */
  datatype Fetched = Fetched(effects: seq<Effect>, store: Store, state: Option<ConversationState>)

  /** `get_conversation_state(u)` as written. Above the character budget the history
      is handed to the summariser; `summarize_text` then deletes all of the user's
      records and calls `save_chat_history` with four arguments where five are
      required, which raises before anything is inserted. */
  function FetchState(compact: string -> Option<string>, s: Store, u: UserId): (f: Fetched)
    ensures f.state.Some? ==> f.store == s && f.effects == []
    ensures f.store == s || f.store == Deleted(s, u)
  {
    var recent := Recent(Turns(s, u), HistoryLimit);
    Fetched(FetchEffects(compact, recent, u),
            if Compacted(compact, recent) then Deleted(s, u) else s,
            if Oversized(recent) then None else Some(Derive(recent)))
  }

  /** Whether the recent history exceeds the character budget, so that
      `summarize_text` goes to the summariser. */
  predicate Oversized(recent: seq<Turn>) {
    recent != [] && |HistoryText(recent)| > SummaryMaxChars
  }

  /** Whether the summariser also returned, so that the records were deleted. */
  predicate Compacted(compact: string -> Option<string>, recent: seq<Turn>) {
    Oversized(recent) && compact(HistoryText(recent)).Some?
  }

  function FetchEffects(compact: string -> Option<string>, recent: seq<Turn>, u: UserId): seq<Effect> {
    if !Oversized(recent) then []
    else if compact(HistoryText(recent)).None? then [Compact(HistoryText(recent))]
    else [Compact(HistoryText(recent)), DeleteHistory(u)]
  }

  /** `summarize_text` at or below the budget: the history text comes back
      unchanged, nothing is issued and the collection is untouched. */
  lemma SummarizeBelowBudget(compact: string -> Option<string>, s: Store, u: UserId)
    requires var recent := Recent(Turns(s, u), HistoryLimit);
             recent != [] && |HistoryText(recent)| <= SummaryMaxChars
    ensures var f := FetchState(compact, s, u);
            && f.effects == [] && f.store == s
            && f.state.Some? && f.state.value.history == HistoryText(Recent(Turns(s, u), HistoryLimit))
  {
  }

  /** `summarize_text` above the budget, as written: the text goes to the
      summariser and, if that returns, every record of the user is deleted and the
      summary record is never written, so the user is left with no history; either
      way no state comes back. */
  lemma SummarizeAboveBudget(compact: string -> Option<string>, s: Store, u: UserId)
    requires |HistoryText(Recent(Turns(s, u), HistoryLimit))| > SummaryMaxChars
    ensures var text := HistoryText(Recent(Turns(s, u), HistoryLimit));
            var f := FetchState(compact, s, u);
            && f.state.None?
            && |f.effects| >= 1 && f.effects[0] == Compact(text)
            && (compact(text).Some? <==> f.store == Deleted(s, u) && DeleteHistory(u) in f.effects)
            && (compact(text).Some? ==> Turns(f.store, u) == [])
            && (forall e :: e in f.effects ==> !e.SaveTurn?)
  {
    var recent := Recent(Turns(s, u), HistoryLimit);
    assert recent != [];
  }

  /** A user with no records gets an empty history, no decision and no user
      messages, and nothing is compacted. */
  lemma FetchStateOfNewUser(compact: string -> Option<string>, s: Store, u: UserId)
    requires Turns(s, u) == []
    ensures FetchState(compact, s, u) == Fetched([], s, Some(ConversationState("", None, "")))
  {
    assert !Oversized([]);
  }

  /** When the state is returned, its decision is the `path_decision` of the
      user's newest record, whatever the older records hold. */
  lemma LatestDecisionIsNewest(compact: string -> Option<string>, s: Store, u: UserId)
    requires Turns(s, u) != []
    requires FetchState(compact, s, u).state.Some?
    ensures FetchState(compact, s, u).state.value.latestDecision == Turns(s, u)[|Turns(s, u)| - 1].pathDecision
  {
    var ts := Turns(s, u);
    var recent := Recent(ts, HistoryLimit);
    assert recent[|recent| - 1] == ts[|ts| - 1];
  }

  lemma {:induction false} UserMessagesAppend(a: seq<Turn>, b: seq<Turn>)
    ensures UserMessages(a + b) == UserMessages(a) + UserMessages(b)
  {
    if a != [] {
      assert (a + b)[1..] == a[1..] + b;
      UserMessagesAppend(a[1..], b);
    } else {
      assert a + b == b;
    }
  }

  /** Adding one record extends the history text by one line and the user messages
      by that record's message exactly when the user wrote it. */
  lemma HistorySnoc(ts: seq<Turn>, t: Turn)
    requires ts != []
    ensures HistoryText(ts + [t]) == HistoryText(ts) + "\n" + Line(t)
    ensures UserMessages(ts + [t]) == UserMessages(ts) + (if t.sender == User then [t.message] else [])
  {
    assert Lines(ts + [t]) == Lines(ts) + [Line(t)];
    JoinSnoc("\n", Lines(ts), Line(t));
    UserMessagesAppend(ts, [t]);
    assert UserMessages([t]) == (if t.sender == User then [t.message] else []) + UserMessages([]);
  }

  /** Only the `HistoryLimit` most recent records matter: records older than those
      change neither the derived state nor whether compaction happens. */
  lemma OlderTurnsIgnored(compact: string -> Option<string>, s1: Store, s2: Store, u: UserId, older: seq<Turn>)
    requires |Turns(s2, u)| >= HistoryLimit
    requires Turns(s1, u) == older + Turns(s2, u)
    ensures FetchState(compact, s1, u).state == FetchState(compact, s2, u).state
    ensures FetchState(compact, s1, u).effects == FetchState(compact, s2, u).effects
  {
    var ts := Turns(s2, u);
    var all := older + ts;
    assert all[|all| - HistoryLimit..] == ts[|ts| - HistoryLimit..];
    assert Recent(all, HistoryLimit) == Recent(ts, HistoryLimit);
  }

  /** The collection as it appears to the handlers: one document per record. */
  class ConversationStore {
    var log: Store

    constructor ()
      ensures log == map[]
    {
      log := map[];
    }

    /** `conversations.insert_one(...)`. */
    method InsertOne(u: UserId, t: Turn)
      modifies this
      ensures log == Saved(old(log), u, t)
    {
      log := log[u := Turns(log, u) + [t]];
    }

    /** `conversations.delete_many({"user_id": u})`. */
    method DeleteMany(u: UserId)
      modifies this
      ensures log == Deleted(old(log), u)
    {
      log := log - {u};
    }

    /** `conversations.find({"user_id": u}, sort=[("timestamp", -1)], limit=n)`,
        then `reversed(...)` back into chronological order. Records are inserted
        in timestamp order, so newest first is from the end of the user's log. */
    method FindRecent(u: UserId, n: nat) returns (msgs: seq<Turn>)
      ensures msgs == Recent(Turns(log, u), n)
    {
      var all := Turns(log, u);
      // the cursor: newest first, at most n documents
      var newestFirst: seq<Turn> := [];
      var i := |all|;
      while i > 0 && |newestFirst| < n
        invariant 0 <= i <= |all|
        invariant |newestFirst| == |all| - i <= n
        invariant forall k :: 0 <= k < |newestFirst| ==> newestFirst[k] == all[|all| - 1 - k]
      {
        i := i - 1;
        newestFirst := newestFirst + [all[i]];
      }
      // reversed(...)
      msgs := [];
      var j := |newestFirst|;
      while j > 0
        invariant 0 <= j <= |newestFirst|
        invariant msgs == all[i..i + |newestFirst| - j]
      {
        j := j - 1;
        assert newestFirst[j] == all[i + |newestFirst| - j - 1];
        assert all[i..i + |newestFirst| - j] == all[i..i + |newestFirst| - j - 1] + [all[i + |newestFirst| - j - 1]];
        msgs := msgs + [newestFirst[j]];
      }
      assert msgs == all[i..];
      if |all| <= n {
        assert i == 0 && all[0..] == all;
      } else {
        assert i == |all| - n;
      }
    }

    /** `get_conversation_state(user_id)` with its defaults, compaction included. */
    method GetConversationState(compact: string -> Option<string>, u: UserId)
      returns (effects: seq<Effect>, state: Option<ConversationState>)
      modifies this
      ensures Fetched(effects, log, state) == FetchState(compact, old(log), u)
    {
      var msgs := FindRecent(u, HistoryLimit);
      if msgs == [] {
        return [], Some(ConversationState("", None, ""));
      }
      var history := HistoryText(msgs);
      if |history| <= SummaryMaxChars {
        return [], Some(Derive(msgs));
      }
      effects := [Compact(history)];
      var summary := compact(history);
      if summary.None? {
        return effects, None;
      }
      DelChatHistory(this, u);
      effects := effects + [DeleteHistory(u)];
      // save_chat_history(user_id, "assistant", summary, timestamp) lacks
      // path_decision and raises before inserting anything.
      state := None;
    }
  }

  /** `save_chat_history(user_id, sender, message, timestamp, path_decision)`:
      inserts exactly one record for `u`; other users' records are untouched. */
  method SaveChatHistory(store: ConversationStore, u: UserId, sender: Sender, message: string,
                         timestamp: int, pathDecision: string)
    modifies store
    ensures store.log == Saved(old(store.log), u, Turn(sender, message, timestamp, Some(pathDecision)))
  {
    store.InsertOne(u, Turn(sender, message, timestamp, Some(pathDecision)));
  }

  /** `del_chat_history(user_id)`: removes every record of `u` and nothing else. */
  method DelChatHistory(store: ConversationStore, u: UserId)
    modifies store
    ensures store.log == Deleted(old(store.log), u)
  {
    store.DeleteMany(u);
  }
}
