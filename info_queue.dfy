/** The pending server-info queue kept by both the current server type utilities
    (Submodules/ServerTypeUtils/ServerTypeUtils.cs) and the earlier plugin class
    (PluginMain.cs): a list that requests are appended to and taken from at the front,
    and whose JSON text is handed to the queue file's writer after every change. `T` is
    the request type. */
module ServerInfoQueue {
  import opened Common

  const EmptyQueueReason: string := "No server info in the queue."
  const QueueErrorPrefix: string := "Error processing server info queue: "

  /** What `serverInfoQueue.json` holds at startup: no file, content that cannot be read
      as a list of requests (including the JSON literal `null`), or a list of requests. */
  datatype QueueFile<T> = NoQueueFile | UnreadableQueue | QueueList(infos: seq<T>)

  /** The requests loaded at startup; a missing or unreadable file adds none. */
  function LoadQueue<T>(file: QueueFile<T>): (q: seq<T>)
    ensures file.QueueList? ==> q == file.infos
    ensures !file.QueueList? ==> q == []
  {
    if file.QueueList? then file.infos else []
  }

  /** The queue, and the lists whose JSON text the code asked the queue file's writer to
      write, oldest first (what ends up on disk is not modelled). */
  datatype QueueState<T> = QueueState(queue: seq<T>, saved: seq<seq<T>>)

  /** The queue becomes `q` and is handed to the file's writer, unless opening or writing
      the file raises the exception whose message is `writeError`. */
  function Save<T>(s: QueueState<T>, q: seq<T>, writeError: Option<string>): QueueState<T>
  {
    QueueState(q, if writeError.None? then s.saved + [q] else s.saved)
  }

  /** `AddServerInfoToQueue`: the request is appended before the file is written, so it
      stays queued even when the write fails. */
  function AddStep<T>(s: QueueState<T>, info: T, writeError: Option<string>): (QueueState<T>, ActionResult)
  {
    (Save(s, s.queue + [info], writeError),
     if writeError.None? then Success else FailureReason(QueueErrorPrefix + writeError.value))
  }

  /** The queue after `ProcessServerInfoQueue`: the head is removed before the file is
      written, so a failed write drops it without applying it. */
  function Dequeued<T>(s: QueueState<T>, writeError: Option<string>): QueueState<T>
  {
    if s.queue == [] then s else Save(s, s.queue[1..], writeError)
  }

  /** Adding appends at the tail whether or not the file can be written, and succeeds
      exactly when it can; the new queue is then the last list handed to the writer. */
  lemma AddAppends<T>(s: QueueState<T>, info: T, writeError: Option<string>)
    ensures AddStep(s, info, writeError).0.queue == s.queue + [info]
    ensures AddStep(s, info, writeError).1 == Success <==> writeError.None?
    ensures writeError.None? ==> AddStep(s, info, writeError).0.saved == s.saved + [s.queue + [info]]
  {
  }

  /** Adding several requests, each write succeeding. */
  function AddAll<T>(s: QueueState<T>, infos: seq<T>): QueueState<T>
    decreases |infos|
  {
    if infos == [] then s
    else AddStep(AddAll(s, infos[..|infos| - 1]), infos[|infos| - 1], None).0
  }

  /** Processing `n` times, each write succeeding: the final state and the requests taken,
      in the order they were taken. */
  function Drain<T>(s: QueueState<T>, n: nat): (QueueState<T>, seq<T>)
    decreases n
  {
    if n == 0 || s.queue == [] then (s, [])
    else
      var next := Drain(Dequeued(s, None), n - 1);
      (next.0, [s.queue[0]] + next.1)
  }

  lemma {:induction false} AddAllAppends<T>(s: QueueState<T>, infos: seq<T>)
    ensures AddAll(s, infos).queue == s.queue + infos
    decreases |infos|
  {
    if infos != [] {
      AddAllAppends(s, infos[..|infos| - 1]);
      assert s.queue + infos[..|infos| - 1] + [infos[|infos| - 1]] == s.queue + infos;
    }
  }

  /** Processing `n` queued requests takes the first `n`, in queue order, and leaves the
      rest queued. */
  lemma {:induction false} DrainInOrder<T>(s: QueueState<T>, n: nat)
    requires n <= |s.queue|
    decreases n
    ensures Drain(s, n).0.queue == s.queue[n..]
    ensures Drain(s, n).1 == s.queue[..n]
  {
    if n > 0 {
      var t := Dequeued(s, None);
      assert t.queue == s.queue[1..];
      DrainInOrder(t, n - 1);
      assert t.queue[n - 1..] == s.queue[n..];
      assert [s.queue[0]] + t.queue[..n - 1] == s.queue[..n];
    }
  }

  /** First in, first out: after requests are added to a queue, processing takes the
      requests that were already queued, then the added ones, each in its order, and
      leaves the queue empty. */
  lemma Fifo<T>(s: QueueState<T>, infos: seq<T>)
    ensures Drain(AddAll(s, infos), |s.queue| + |infos|).0.queue == []
    ensures Drain(AddAll(s, infos), |s.queue| + |infos|).1 == s.queue + infos
  {
    var added := AddAll(s, infos);
    AddAllAppends(s, infos);
    DrainInOrder(added, |added.queue|);
    assert added.queue[..|added.queue|] == s.queue + infos;
  }
}
