/** `USER_BUFFERS` of the current handler: per user, the fragments received since
    the last flush, the newest reply token and the batch task scheduled for them.
    A batch task is identified by an id; `pending` holds the ids of the tasks that
    are still sleeping (neither cancelled nor woken up) with the user each was
    created for. Cancelling a task removes its id; a task whose id is no longer
    pending ends with `CancelledError` when it would have woken up. */
module Debounce {
  import opened Types
  import opened Text
  import opened Pipeline

  type TaskId = nat

  datatype Buffer = Buffer(messages: seq<string>, replyToken: Option<Token>, task: Option<TaskId>)

  /** The default entry of the `defaultdict`. */
  const EmptyBuffer := Buffer([], None, None)

  datatype Registry = Registry(buffers: map<UserId, Buffer>, pending: map<TaskId, UserId>, next: TaskId)

  const Initial := Registry(map[], map[], 0)

  /** The fragment that resets the chat instead of being buffered. */
  const ResetSentinel := "CHAT RESET"

  /** `USER_BUFFERS[user_id]`: a missing entry reads as the default one. */
  function BufferOf(r: Registry, u: UserId): Buffer {
    if u in r.buffers then r.buffers[u] else EmptyBuffer
  }

  /** `not task or task.done()`: the loading indicator is sent when no stored task
      is still sleeping. */
  predicate NeedsIndicator(r: Registry, u: UserId) {
    var t := BufferOf(r, u).task;
    t.None? || t.value !in r.pending
  }

  /** `task.cancel()` on the stored task; cancelling a finished task does nothing. */
  function Cancelled(pending: map<TaskId, UserId>, t: Option<TaskId>): map<TaskId, UserId> {
    if t.Some? then pending - {t.value} else pending
  }

  /** An ordinary fragment: appended, its token kept as the newest, the stored task
      cancelled and a fresh task scheduled in its place. */
  function Appended(r: Registry, u: UserId, text: string, token: Token): Registry {
    var b := BufferOf(r, u);
    Registry(r.buffers[u := Buffer(b.messages + [text], Some(token), Some(r.next))],
             Cancelled(r.pending, b.task)[r.next := u],
             r.next + 1)
  }

  /** `USER_BUFFERS.pop(user_id, None)`: the entry goes, its task is not cancelled. */
  function Popped(r: Registry, u: UserId): Registry {
    Registry(r.buffers - {u}, r.pending, r.next)
  }

  /** What a batch task takes from the buffer when it wakes up. */
  datatype Batch = Batch(user: UserId, snapshot: Snapshot)

  datatype Fire = Fire(registry: Registry, batch: Option<Batch>)

  /** Task `id` wakes up: a cancelled (or already woken) task ends with nothing
      taken; otherwise the buffer of its user is copied out and reset. */
  function Fired(r: Registry, id: TaskId): Fire {
    if id !in r.pending then Fire(r, None)
    else
      var u := r.pending[id];
      var b := BufferOf(r, u);
      Fire(Registry(r.buffers[u := EmptyBuffer], r.pending - {id}, r.next),
           Some(Batch(u, Snapshot(b.messages, b.replyToken))))
  }

  /** The bookkeeping every reachable registry satisfies: ids below `next`, a stored
      task still sleeping for its own user, and buffered fragments always with a
      token and a task to deliver them. */
  predicate Valid(r: Registry) {
    && (forall id :: id in r.pending ==> id < r.next)
    && (forall u :: u in r.buffers && r.buffers[u].task.Some? ==>
          r.buffers[u].task.value in r.pending && r.pending[r.buffers[u].task.value] == u)
    && (forall u :: u in r.buffers && r.buffers[u].messages != [] ==>
          r.buffers[u].replyToken.Some? && r.buffers[u].task.Some?)
  }

  /** Every sleeping task is the one stored in its user's buffer. */
  predicate Tracked(r: Registry) {
    forall id :: id in r.pending ==> r.pending[id] in r.buffers && r.buffers[r.pending[id]].task == Some(id)
  }

  lemma InitialValid()
    ensures Valid(Initial) && Tracked(Initial)
  {
  }

  /** Appending keeps the bookkeeping. */
  lemma AppendedValid(r: Registry, u: UserId, text: string, token: Token)
    requires Valid(r)
    ensures Valid(Appended(r, u, text, token))
  {
    var r' := Appended(r, u, text, token);
    forall v | v in r'.buffers && r'.buffers[v].task.Some?
      ensures r'.buffers[v].task.value in r'.pending && r'.pending[r'.buffers[v].task.value] == v
    {
      if v != u {
        var id := r.buffers[v].task.value;
        assert r.pending[id] == v;
        assert id != r.next;
      }
    }
  }

  /** Waking a task keeps the bookkeeping. */
  lemma FiredValid(r: Registry, id: TaskId)
    requires Valid(r)
    ensures Valid(Fired(r, id).registry)
  {
  }

  /** Resetting keeps the bookkeeping. */
  lemma PoppedValid(r: Registry, u: UserId)
    requires Valid(r)
    ensures Valid(Popped(r, u))
  {
  }

  /** While every sleeping task is tracked, each user has at most one. */
  lemma TrackedSingle(r: Registry, id1: TaskId, id2: TaskId)
    requires Tracked(r)
    requires id1 in r.pending && id2 in r.pending && r.pending[id1] == r.pending[id2]
    ensures id1 == id2
  {
  }

  /** Appending cancels the user's only sleeping task and tracks the new one, so
      there is again at most one sleeping task per user. */
  lemma AppendedTracked(r: Registry, u: UserId, text: string, token: Token)
    requires Valid(r) && Tracked(r)
    ensures Tracked(Appended(r, u, text, token))
    ensures Appended(r, u, text, token).pending.Keys == (r.pending.Keys - (set id | id in r.pending && r.pending[id] == u)) + {r.next}
  {
    var r' := Appended(r, u, text, token);
    forall id | id in r'.pending
      ensures r'.pending[id] in r'.buffers && r'.buffers[r'.pending[id]].task == Some(id)
    {
      if id != r.next {
        assert id in r.pending;
        if r.pending[id] == u {
          assert BufferOf(r, u).task == Some(id);
        }
      }
    }
  }

  /** Waking a tracked task keeps every other sleeping task tracked. */
  lemma FiredTracked(r: Registry, id: TaskId)
    requires Tracked(r)
    ensures Tracked(Fired(r, id).registry)
  {
    if id in r.pending {
      var r' := Fired(r, id).registry;
      forall id' | id' in r'.pending
        ensures r'.pending[id'] in r'.buffers && r'.buffers[r'.pending[id']].task == Some(id')
      {
        assert r.pending[id'] != r.pending[id];
      }
    }
  }

  /** A reset keeps every sleeping task tracked exactly when the user had no task
      scheduled; otherwise that task keeps sleeping for a buffer that is gone. */
  lemma PoppedTracked(r: Registry, u: UserId)
    requires Valid(r) && Tracked(r)
    ensures Tracked(Popped(r, u)) <==> BufferOf(r, u).task.None?
    ensures BufferOf(r, u).task.Some? ==>
              var id := BufferOf(r, u).task.value;
              id in Popped(r, u).pending && Popped(r, u).pending[id] == u && u !in Popped(r, u).buffers
  {
    if BufferOf(r, u).task.Some? {
      var id := BufferOf(r, u).task.value;
      assert id in Popped(r, u).pending && u !in Popped(r, u).buffers;
    } else {
      forall id | id in r.pending ensures r.pending[id] != u {
      }
    }
  }

  /** A waking task takes exactly what its user's buffer held, leaves that buffer
      empty and no longer sleeps; the other buffers are untouched. A task that is
      no longer pending changes nothing. */
  lemma FiredTakesBuffer(r: Registry, id: TaskId)
    ensures var f := Fired(r, id);
            && (id !in r.pending ==> f == Fire(r, None))
            && (id in r.pending ==>
                  var u := r.pending[id];
                  && f.batch == Some(Batch(u, Snapshot(BufferOf(r, u).messages, BufferOf(r, u).replyToken)))
                  && BufferOf(f.registry, u) == EmptyBuffer
                  && id !in f.registry.pending
                  && (forall v :: v != u ==> BufferOf(f.registry, v) == BufferOf(r, v)))
  {
  }

  /** One received fragment of a burst: its text and its reply token. */
  datatype Fragment = Fragment(text: string, token: Token)

  function Texts(fs: seq<Fragment>): (ts: seq<string>)
    ensures |ts| == |fs|
    ensures forall i :: 0 <= i < |fs| ==> ts[i] == fs[i].text
  {
    if fs == [] then [] else Texts(fs[..|fs| - 1]) + [fs[|fs| - 1].text]
  }

  /** The registry after the fragments of `fs` arrived for `u`, one after another. */
  function AppendAll(r: Registry, u: UserId, fs: seq<Fragment>): Registry {
    if fs == [] then r
    else
      var last := fs[|fs| - 1];
      Appended(AppendAll(r, u, fs[..|fs| - 1]), u, last.text, last.token)
  }

  /** A burst of fragments: the buffer ends up holding the earlier fragments followed
      by the burst in arrival order, the newest token and the newest task; every
      earlier task of the burst was cancelled, and no other user's buffer changed. */
  lemma {:induction false} AppendAllBurst(r: Registry, u: UserId, fs: seq<Fragment>)
    requires fs != []
    ensures var r' := AppendAll(r, u, fs);
            && r'.next == r.next + |fs|
            && BufferOf(r', u) == Buffer(BufferOf(r, u).messages + Texts(fs), Some(fs[|fs| - 1].token), Some(r'.next - 1))
            && r'.next - 1 in r'.pending && r'.pending[r'.next - 1] == u
            && (forall id :: r.next <= id < r'.next - 1 ==> id !in r'.pending)
            && (forall v :: v != u ==> BufferOf(r', v) == BufferOf(r, v))
  {
    var front, last := fs[..|fs| - 1], fs[|fs| - 1];
    var prev := AppendAll(r, u, front);
    var r' := Appended(prev, u, last.text, last.token);
    assert AppendAll(r, u, fs) == r';
    assert Texts(fs) == Texts(front) + [last.text];
    AppendedStep(prev, u, last.text, last.token);
    if front != [] {
      AppendAllBurst(r, u, front);
      forall id | r.next <= id < r'.next - 1 ensures id !in r'.pending {
        if id < prev.next - 1 {
          assert id !in prev.pending;
        }
      }
      assert BufferOf(r, u).messages + Texts(front) + [last.text] == BufferOf(r, u).messages + Texts(fs);
    } else {
      assert prev == r;
      assert Texts(front) == [];
    }
  }

  /** One fragment: it is appended with its token, a fresh task is scheduled for the
      user, the stored task is cancelled, no other task appears and no other buffer
      changes. */
  lemma AppendedStep(r: Registry, u: UserId, text: string, token: Token)
    ensures var r' := Appended(r, u, text, token);
            && r'.next == r.next + 1
            && BufferOf(r', u) == Buffer(BufferOf(r, u).messages + [text], Some(token), Some(r.next))
            && r.next in r'.pending && r'.pending[r.next] == u
            && (forall id :: id in r'.pending && id != r.next ==> id in r.pending)
            && (BufferOf(r, u).task.Some? && BufferOf(r, u).task.value != r.next ==> BufferOf(r, u).task.value !in r'.pending)
            && (forall v :: v != u ==> BufferOf(r', v) == BufferOf(r, v))
  {
  }

  /** Debouncing: after a burst only its newest task delivers, and it delivers the
      whole burst with the newest token; every earlier task of the burst wakes up
      to nothing. */
  lemma BurstThenFire(r: Registry, u: UserId, fs: seq<Fragment>)
    requires fs != []
    ensures var r' := AppendAll(r, u, fs);
            && Fired(r', r'.next - 1).batch ==
                 Some(Batch(u, Snapshot(BufferOf(r, u).messages + Texts(fs), Some(fs[|fs| - 1].token))))
            && (forall id :: r.next <= id < r'.next - 1 ==> Fired(r', id) == Fire(r', None))
  {
    AppendAllBurst(r, u, fs);
  }

  /** A reset does not cancel the scheduled task: after "a", a reset and "b", the
      first task wakes up and delivers "b" early, and the batch task scheduled for "b"
      then wakes up to an empty buffer. */
  lemma ResetLeavesOrphanTask()
    ensures var r1 := Appended(Initial, "u", "a", "t1");
            var r3 := Appended(Popped(r1, "u"), "u", "b", "t2");
            var f0 := Fired(r3, 0);
            && f0.batch == Some(Batch("u", Snapshot(["b"], Some("t2"))))
            && Fired(f0.registry, 1).batch == Some(Batch("u", Snapshot([], None)))
  {
    var r1 := Appended(Initial, "u", "a", "t1");
    var r3 := Appended(Popped(r1, "u"), "u", "b", "t2");
    assert BufferOf(Popped(r1, "u"), "u") == EmptyBuffer;
    assert r3.pending == map[0 := "u", 1 := "u"];
    assert BufferOf(r3, "u") == Buffer([] + ["b"], Some("t2"), Some(1));
    assert [] + ["b"] == ["b"];
    assert 0 in r3.pending && r3.pending[0] == "u";
    var f0 := Fired(r3, 0);
    assert f0.batch == Some(Batch("u", Snapshot(["b"], Some("t2"))));
    assert f0.registry.pending == map[1 := "u"];
    assert BufferOf(f0.registry, "u") == EmptyBuffer;
    assert Fired(f0.registry, 1).batch == Some(Batch("u", Snapshot([], None)));
  }
}
