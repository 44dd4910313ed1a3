// The per-agent message queues the chain relies on: a mailbox a peer on one
// socket, and the queues of completion notices.

module NixlQueues {

  function Queue<V>(queues: map<string, seq<V>>, name: string): seq<V> {
    if name in queues then queues[name] else []
  }

  /** What `name` has sent among the messages still on the socket. */
  function SentBy<V>(name: string, socket: seq<(string, V)>): seq<V> {
    if socket == [] then [] else (if socket[0].0 == name then [socket[0].1] else []) + SentBy(name, socket[1..])
  }

  /** Taking a message off the socket and queueing it changes nobody's unread messages. */
  lemma {:induction false} SortIn<V>(queues: map<string, seq<V>>, sender: string, message: V, rest: seq<(string, V)>,
                                     name: string)
    ensures Queue(queues[sender := Queue(queues, sender) + [message]], name) + SentBy(name, rest) ==
            Queue(queues, name) + SentBy(name, [(sender, message)] + rest)
  {
  }

  /** Messages from all peers arrive on one socket and are sorted into one queue a peer. */
  class Mailbox<V> {
    var messages: map<string, seq<V>>
    var socket: seq<(string, V)>

    /** Everything `name` has sent that has not been read, oldest first. */
    ghost function Unread(name: string): seq<V>
      reads this
    {
      Queue(messages, name) + SentBy(name, socket)
    }

    /** Returns the peer's oldest unread message and disturbs no other peer's; it would wait for ever
        only if the peer had sent nothing more. */
    method ReadMessage(name: string) returns (m: V)
      requires Unread(name) != []
      modifies this
      ensures old(Unread(name)) == [m] + Unread(name)
      ensures forall other :: other != name ==> Unread(other) == old(Unread(other))
    {
      while Queue(messages, name) == []
        invariant forall other :: Unread(other) == old(Unread(other))
        decreases |socket|
      {
        var (sender, message) := socket[0];
        ghost var before, rest := messages, socket[1..];
        messages := messages[sender := Queue(messages, sender) + [message]];
        socket := socket[1..];
        assert [(sender, message)] + rest == [(sender, message)] + socket;
        forall other ensures Unread(other) == Queue(before, other) + SentBy(other, [(sender, message)] + rest) {
          SortIn(before, sender, message, rest, other);
        }
      }
      m := messages[name][0];
      messages := messages[name := messages[name][1..]];
    }
  }

  // ---------- completion notices ----------

  /** One batch of new notices: peers with their notices, in the order the batch lists them. */
  type Batch<V> = seq<(string, seq<V>)>

  datatype Notice<V> = Waiting | Got(name: string, note: V, queues: map<string, seq<V>>)

  function Extend<V>(queues: map<string, seq<V>>, batch: Batch<V>): map<string, seq<V>>
    decreases |batch|
  {
    if batch == [] then queues
    else Extend(queues[batch[0].0 := Queue(queues, batch[0].0) + batch[0].1], batch[1..])
  }

  /** Whose notice the wait is for after a batch. */
  function LastSender<V>(name: string, batch: Batch<V>): string {
    if batch == [] then name else batch[|batch| - 1].0
  }

  /** The outcome of waiting for a notice of `name`: the loop over a batch rebinds the name that is being
      waited for, so after a batch the wait and the pop are for the last peer of that batch. */
  function Await<V>(queues: map<string, seq<V>>, name: string, batches: seq<Batch<V>>): Notice<V>
    decreases |batches|
  {
    if Queue(queues, name) != [] then Got(name, queues[name][0], queues[name := queues[name][1..]])
    else if batches == [] then Waiting
    else
      var batch := batches[0];
      Await(Extend(queues, batch), LastSender(name, batch), batches[1..])
  }

  lemma {:induction false} AwaitStep<V>(queues: map<string, seq<V>>, name: string, batches: seq<Batch<V>>, i: nat)
    requires i < |batches| && Queue(queues, name) == []
    ensures Await(queues, name, batches[i..]) ==
            Await(Extend(queues, batches[i]), LastSender(name, batches[i]), batches[i + 1..])
  {
  }

  lemma {:induction false} ExtendStep<V>(queues: map<string, seq<V>>, batch: Batch<V>, j: nat)
    requires j < |batch|
    ensures Extend(queues, batch[j..]) ==
            Extend(queues[batch[j].0 := Queue(queues, batch[j].0) + batch[j].1], batch[j + 1..])
  {
  }

  class Notifier<V> {
    var notifications: map<string, seq<V>>

    method GetNotification(name: string, batches: seq<Batch<V>>) returns (n: Notice<V>)
      modifies this
      ensures n == Await(old(notifications), name, batches)
      ensures n.Got? ==> notifications == n.queues
    {
      var remoteName, i := name, 0;
      assert batches[0..] == batches;
      while Queue(notifications, remoteName) == []
        invariant i <= |batches|
        invariant Await(old(notifications), name, batches) == Await(notifications, remoteName, batches[i..])
        decreases |batches| - i
      {
        if i == |batches| {
          return Waiting;
        }
        var batch := batches[i];
        AwaitStep(notifications, remoteName, batches, i);
        hide Await, Extend, Queue;
        ghost var before, asked := notifications, remoteName;
        assert batch[0..] == batch;
        for j := 0 to |batch|
          invariant Extend(before, batch) == Extend(notifications, batch[j..])
          invariant remoteName == if j == 0 then asked else batch[j - 1].0
        {
          ExtendStep(notifications, batch, j);
          remoteName := batch[j].0;
          notifications := notifications[remoteName := Queue(notifications, remoteName) + batch[j].1];
        }
        assert batch[|batch|..] == [];
        ExtendNothing(notifications);
        i := i + 1;
      }
      n := Got(remoteName, notifications[remoteName][0], notifications[remoteName := notifications[remoteName][1..]]);
      notifications := n.queues;
    }
  }

  lemma {:induction false} ExtendNothing<V>(queues: map<string, seq<V>>)
    ensures Extend(queues, []) == queues
  {
  }

  // ---------- which notice is handed out ----------

  /** The notices of `name` in a batch. */
  function Notes<V>(name: string, batch: Batch<V>): seq<V> {
    if batch == [] then [] else (if batch[0].0 == name then batch[0].1 else []) + Notes(name, batch[1..])
  }

  function NotesIn<V>(name: string, batches: seq<Batch<V>>): seq<V> {
    if batches == [] then [] else Notes(name, batches[0]) + NotesIn(name, batches[1..])
  }

  /** Everything `name` has queued once i batches have come in. */
  function Arrived<V>(queues: map<string, seq<V>>, name: string, batches: seq<Batch<V>>, i: nat): seq<V>
    requires i <= |batches|
  {
    Queue(queues, name) + NotesIn(name, batches[..i])
  }

  /** Whom the wait is for once i batches have come in. */
  function WaitsFor<V>(name: string, batches: seq<Batch<V>>, i: nat): string
    requires i <= |batches|
    decreases i
  {
    if i == 0 then name else WaitsFor(LastSender(name, batches[0]), batches[1..], i - 1)
  }

  lemma {:induction false} ExtendAppends<V>(queues: map<string, seq<V>>, batch: Batch<V>, name: string)
    ensures Queue(Extend(queues, batch), name) == Queue(queues, name) + Notes(name, batch)
    decreases |batch|
  {
    if batch != [] {
      ExtendAppends(queues[batch[0].0 := Queue(queues, batch[0].0) + batch[0].1], batch[1..], name);
    }
  }

  lemma {:induction false} NotesInFirst<V>(name: string, batches: seq<Batch<V>>, i: nat)
    requires i < |batches|
    ensures NotesIn(name, batches[..i + 1]) == Notes(name, batches[0]) + NotesIn(name, batches[1..][..i])
  {
    assert batches[..i + 1][1..] == batches[1..][..i];
    hide Notes;
  }

  lemma {:induction false} ArrivedLater<V>(queues: map<string, seq<V>>, name: string, batches: seq<Batch<V>>, i: nat)
    requires i < |batches|
    ensures Arrived(queues, name, batches, i + 1) == Arrived(Extend(queues, batches[0]), name, batches[1..], i)
  {
    ExtendAppends(queues, batches[0], name);
    NotesInFirst(name, batches, i);
    hide Extend, Notes, NotesIn, Queue;
  }

  lemma {:induction false} NothingArrived<V>(queues: map<string, seq<V>>, name: string, batches: seq<Batch<V>>)
    ensures Arrived(queues, name, batches, 0) == Queue(queues, name)
  {
  }

  /** No earlier than after i batches does the peer that the wait is then for have a notice. */
  ghost predicate NoneBefore<V>(queues: map<string, seq<V>>, name: string, batches: seq<Batch<V>>, i: nat)
    requires i <= |batches|
  {
    forall m: nat :: m < i ==> Arrived(queues, WaitsFor(name, batches, m), batches, m) == []
  }

  /** What is handed out once i batches have come in: the oldest notice of the peer that the wait is then for, and
      no other notice is lost or moved. */
  ghost predicate HandedOut<V>(n: Notice<V>, queues: map<string, seq<V>>, name: string, batches: seq<Batch<V>>, i: nat)
    requires i <= |batches|
  {
    match n
    case Waiting => i == |batches| && Arrived(queues, WaitsFor(name, batches, i), batches, i) == []
    case Got(peer, note, rest) =>
      && peer == WaitsFor(name, batches, i)
      && Arrived(queues, peer, batches, i) == [note] + Queue(rest, peer)
      && forall other :: other != peer ==> Queue(rest, other) == Arrived(queues, other, batches, i)
  }

  lemma {:induction false} HandedOutAtOnce<V>(queues: map<string, seq<V>>, name: string, batches: seq<Batch<V>>)
    requires Queue(queues, name) != [] || batches == []
    ensures HandedOut(Await(queues, name, batches), queues, name, batches, 0)
  {
    forall peer ensures Arrived(queues, peer, batches, 0) == Queue(queues, peer) {
      NothingArrived(queues, peer, batches);
    }
    var q := Queue(queues, name);
    assert q != [] ==> q == [q[0]] + q[1..];
    hide NotesIn, Arrived;
  }

  lemma {:induction false} HandedOutLater<V>(n: Notice<V>, queues: map<string, seq<V>>, name: string,
                                             batches: seq<Batch<V>>, i: nat)
    requires i < |batches| && Queue(queues, name) == []
    requires var after, last := Extend(queues, batches[0]), LastSender(name, batches[0]);
             NoneBefore(after, last, batches[1..], i) && HandedOut(n, after, last, batches[1..], i)
    ensures NoneBefore(queues, name, batches, i + 1) && HandedOut(n, queues, name, batches, i + 1)
  {
    NothingArrived(queues, name, batches);
    hide Extend, Arrived, LastSender;
    forall m: nat, peer | m <= i
      ensures Arrived(queues, peer, batches, m + 1) == Arrived(Extend(queues, batches[0]), peer, batches[1..], m)
    {
      ArrivedLater(queues, peer, batches, m);
    }
    forall m: nat | m < i + 1 ensures Arrived(queues, WaitsFor(name, batches, m), batches, m) == [] {
      if m > 0 {
        assert Arrived(Extend(queues, batches[0]), WaitsFor(LastSender(name, batches[0]), batches[1..], m - 1),
                       batches[1..], m - 1) == [];
      }
    }
  }

  /** The wait ends at the first batch after which the peer it is then for has a notice queued; that peer's oldest
      one is handed out, and no other notice is lost or moved. */
  lemma {:induction false} OldestNotice<V>(queues: map<string, seq<V>>, name: string, batches: seq<Batch<V>>)
    returns (i: nat)
    ensures i <= |batches|
    ensures NoneBefore(queues, name, batches, i) && HandedOut(Await(queues, name, batches), queues, name, batches, i)
    decreases |batches|
  {
    hide Extend, Arrived, LastSender, HandedOut, WaitsFor;
    if Queue(queues, name) != [] || batches == [] {
      i := 0;
      HandedOutAtOnce(queues, name, batches);
    } else {
      var after, last := Extend(queues, batches[0]), LastSender(name, batches[0]);
      var j := OldestNotice(after, last, batches[1..]);
      i := j + 1;
      AwaitStep(queues, name, batches, 0);
      assert batches[0..] == batches;
      hide Await, NoneBefore;
      HandedOutLater(Await(after, last, batches[1..]), queues, name, batches, j);
    }
  }

  ghost predicate OnlyFrom<V>(peers: set<string>, batches: seq<Batch<V>>) {
    forall i, j :: 0 <= i < |batches| && 0 <= j < |batches[i]| ==> batches[i][j].0 in peers
  }

  /** The notice handed out is always one of the peer that was asked for. */
  ghost predicate NeverMixedUp<V(!new)>(queues: map<string, seq<V>>, name: string, peers: set<string>) {
    forall batches: seq<Batch<V>> :: OnlyFrom(peers, batches) ==>
      var n := Await(queues, name, batches); n.Got? ==> n.name == name
  }

  lemma {:induction false} OnePeer<V>(queues: map<string, seq<V>>, name: string, batches: seq<Batch<V>>)
    requires OnlyFrom({name}, batches)
    ensures var n := Await(queues, name, batches); n.Got? ==> n.name == name
    decreases |batches|
  {
    if Queue(queues, name) == [] && batches != [] {
      var batch := batches[0];
      assert batch != [] ==> batches[0][|batch| - 1].0 in {name};
      assert OnlyFrom({name}, batches[1..]) by {
        assert forall i :: 0 <= i < |batches| - 1 ==> batches[1..][i] == batches[i + 1];
      }
      OnePeer(Extend(queues, batch), name, batches[1..]);
    }
  }

  /** An agent that finds no queued notice gets the right peer's notices whatever arrives, if and only if no
      other peer ever notifies it; in the chain only the next rank does. */
  lemma {:induction false} NoticesNeedOnePeer<V(!new)>(queues: map<string, seq<V>>, name: string, peers: set<string>,
                                                note: V)
    requires Queue(queues, name) == []
    ensures NeverMixedUp(queues, name, peers) <==> peers <= {name}
  {
    if peers <= {name} {
      forall batches: seq<Batch<V>> | OnlyFrom(peers, batches)
        ensures var n := Await(queues, name, batches); n.Got? ==> n.name == name
      {
        assert OnlyFrom({name}, batches);
        OnePeer(queues, name, batches);
      }
    } else {
      var other :| other in peers && other != name;
      var batch: Batch<V> := [(other, [note])];
      assert OnlyFrom(peers, [batch]);
      var after := Extend(queues, batch);
      assert batch[1..] == [] && Extend(queues[other := Queue(queues, other) + [note]], []) == after by {
        assert batch[0] == (other, [note]);
      }
      assert after == queues[other := Queue(queues, other) + [note]];
      assert Await(queues, name, [batch]) == Await(after, other, [batch][1..]);
      assert Await(queues, name, [batch]).name == other;
    }
  }
}
