/** The queue between an agent and every handle that sends to it. Senders and withdrawals
    interleave freely with a delivery: a send takes its receipt in one step and queues the
    message in another, so two sends may queue in either order. */
module AgentInbox {
  import opened Contracts

  datatype Message = Message(id: nat, kind: InboxKind, text: string)

  function Kept(messages: seq<Message>, withdrawn: set<nat>): seq<Message> {
    if messages == [] then []
    else
      var m := messages[|messages| - 1];
      Kept(messages[..|messages| - 1], withdrawn) + if m.id in withdrawn then [] else [m]
  }

  ghost predicate DistinctMessages(messages: seq<Message>) {
    forall i, j :: 0 <= i < j < |messages| ==> messages[i].id != messages[j].id
  }

  function Count(b: bool): nat {
    if b then 1 else 0
  }

  lemma {:induction false} KeptAppend(messages: seq<Message>, withdrawn: set<nat>, m: Message)
    ensures Kept(messages + [m], withdrawn) == Kept(messages, withdrawn) + if m.id in withdrawn then [] else [m]
  {
    assert (messages + [m])[..|messages + [m]| - 1] == messages;
  }

  lemma {:induction false} KeptMembers(messages: seq<Message>, withdrawn: set<nat>)
    ensures forall m :: m in Kept(messages, withdrawn) <==> m in messages && m.id !in withdrawn
  {
    if messages != [] {
      var n := |messages| - 1;
      KeptMembers(messages[..n], withdrawn);
      assert messages == messages[..n] + [messages[n]];
    }
  }

  lemma {:induction false} KeptDistinct(messages: seq<Message>, withdrawn: set<nat>)
    requires DistinctMessages(messages)
    ensures DistinctMessages(Kept(messages, withdrawn))
  {
    if messages != [] {
      var n := |messages| - 1;
      var init := messages[..n];
      KeptDistinct(init, withdrawn);
      KeptMembers(init, withdrawn);
      var kept := Kept(init, withdrawn);
      forall i | 0 <= i < |kept| ensures kept[i].id != messages[n].id {
        assert kept[i] in init;
      }
    }
  }

  /** Withdrawing one more message drops exactly it from what is kept. */
  lemma {:induction false} KeptWithdraw(messages: seq<Message>, withdrawn: set<nat>, id: nat)
    ensures Kept(messages, withdrawn + {id}) == Kept(Kept(messages, withdrawn), {id})
  {
    if messages != [] {
      var n := |messages| - 1;
      var kept := Kept(messages[..n], withdrawn);
      KeptWithdraw(messages[..n], withdrawn, id);
      if messages[n].id !in withdrawn {
        KeptAppend(kept, {id}, messages[n]);
      } else {
        assert kept + [] == kept;
      }
    } else {
      assert Kept([], {id}) == [];
    }
  }

  lemma {:induction false} KeptAll(messages: seq<Message>, id: nat)
    requires forall m :: m in messages ==> m.id != id
    ensures Kept(messages, {id}) == messages
  {
    if messages != [] {
      var n := |messages| - 1;
      KeptAll(messages[..n], id);
      assert messages[n] in messages;
    }
  }

  lemma {:induction false} KeptConcat(a: seq<Message>, b: seq<Message>, withdrawn: set<nat>)
    ensures Kept(a + b, withdrawn) == Kept(a, withdrawn) + Kept(b, withdrawn)
  {
    if b == [] {
      assert a + b == a;
    } else {
      var n := |b| - 1;
      KeptConcat(a, b[..n], withdrawn);
      assert (a + b)[..|a + b| - 1] == a + b[..n];
      assert (a + b)[|a + b| - 1] == b[n];
    }
  }

  lemma {:induction false} KeptRemoves(all: seq<Message>, at: nat)
    requires at < |all| && DistinctMessages(all)
    ensures Kept(all, {all[at].id}) == all[..at] + all[at + 1..]
  {
    hide Kept;
    var id := all[at].id;
    assert all == all[..at] + [all[at]] + all[at + 1..];
    KeptConcat(all[..at] + [all[at]], all[at + 1..], {id});
    KeptAppend(all[..at], {id}, all[at]);
    KeptAll(all[..at], id);
    KeptAll(all[at + 1..], id);
  }

  /** A message of what is kept is in exactly one part of it. */
  lemma {:induction false} InOnePart(a: seq<Message>, b: seq<Message>, c: seq<Message>, m: Message)
    requires DistinctMessages(a + b + c)
    ensures Count(m in a) + Count(m in b) + Count(m in c) == Count(m in a + b + c)
  {
    var all := a + b + c;
    if m in all {
      var k :| 0 <= k < |all| && all[k] == m;
      UniqueAt(all, k);
      assert forall i :: 0 <= i < |a| ==> all[i] == a[i];
      assert forall i :: 0 <= i < |b| ==> all[|a| + i] == b[i];
      assert forall i :: 0 <= i < |c| ==> all[|a| + |b| + i] == c[i];
    }
  }

  lemma {:induction false} UniqueAt(all: seq<Message>, k: nat)
    requires DistinctMessages(all) && k < |all|
    ensures forall i :: 0 <= i < |all| && i != k ==> all[i] != all[k]
  {
  }

  lemma {:induction false} WithdrawKeeps(arrived: seq<Message>, withdrawn: set<nat>, front: seq<Message>,
                                         queue: seq<Message>, at: nat)
    requires front + queue == Kept(arrived, withdrawn) && DistinctMessages(arrived) && at < |queue|
    ensures front + (queue[..at] + queue[at + 1..]) == Kept(arrived, withdrawn + {queue[at].id})
  {
    hide Kept;
    var all, k, id := front + queue, |front| + at, queue[at].id;
    KeptDistinct(arrived, withdrawn);
    KeptWithdraw(arrived, withdrawn, id);
    assert all[k] == queue[at];
    KeptRemoves(all, k);
    assert all[..k] == front + queue[..at] && all[k + 1..] == queue[at + 1..];
  }

  class InboxShared {
    var queue: seq<Message>
    var nextId: nat
    /** Receipts handed out whose message is not queued yet. */
    var reserved: set<nat>
    /** Every message ever queued, in arrival order. */
    ghost var arrived: seq<Message>
    ghost var withdrawn: set<nat>
    /** The batch a delivery took and has not finished with. */
    ghost var taken: seq<Message>
    ghost var delivered: seq<Message>

    /** Conservation: what was delivered, what is being delivered and what is queued, in this
        order, is what arrived, in arrival order, less what was withdrawn. */
    ghost predicate Valid()
      reads this
    {
      && delivered + taken + queue == Kept(arrived, withdrawn)
      && DistinctMessages(arrived)
      && (forall m :: m in arrived ==> m.id < nextId && m.id !in reserved)
      && (forall id :: id in reserved ==> id < nextId)
      && (forall id :: id in withdrawn ==> exists m :: m in arrived && m.id == id)
    }

    /** Each message that arrived is in exactly one place. */
    lemma {:induction false} EachInOnePlace(m: Message)
      requires Valid() && m in arrived
      ensures Count(m in queue) + Count(m in taken) + Count(m in delivered) + Count(m.id in withdrawn) == 1
    {
      KeptMembers(arrived, withdrawn);
      KeptDistinct(arrived, withdrawn);
      InOnePart(delivered, taken, queue, m);
    }

    constructor ()
      ensures Valid() && queue == [] && delivered == [] && taken == [] && arrived == []
    {
      queue, nextId := [], 0;
      reserved, arrived, withdrawn, taken, delivered := {}, [], {}, [], [];
    }

    /** The first half of `send_tracked`: the receipt. */
    method Reserve() returns (id: nat)
      requires Valid()
      modifies this`nextId, this`reserved
      ensures Valid() && id == old(nextId) && nextId == id + 1 && reserved == old(reserved) + {id}
    {
      id := nextId;
      nextId := nextId + 1;
      reserved := reserved + {id};
    }

    /** The second half: the message joins the queue. */
    method PushBack(id: nat, kind: InboxKind, text: string)
      requires Valid() && id in reserved
      modifies this`queue, this`reserved, this`arrived
      ensures Valid() && queue == old(queue) + [Message(id, kind, text)]
      ensures arrived == old(arrived) + [Message(id, kind, text)] && reserved == old(reserved) - {id}
    {
      var m := Message(id, kind, text);
      KeptAppend(arrived, withdrawn, m);
      assert id !in withdrawn;
      queue := queue + [m];
      arrived := arrived + [m];
      reserved := reserved - {id};
    }

    /** Remove a message that is still queued. */
    method Withdraw(id: nat) returns (found: bool)
      requires Valid()
      modifies this`queue, this`withdrawn
      ensures Valid()
      ensures found <==> exists m :: m in old(queue) && m.id == id
      ensures found ==> withdrawn == old(withdrawn) + {id} && |queue| == |old(queue)| - 1
      ensures !found ==> queue == old(queue) && withdrawn == old(withdrawn)
    {
      hide Kept;
      var at := 0;
      while at < |queue| && queue[at].id != id
        invariant 0 <= at <= |queue|
        invariant forall i :: 0 <= i < at ==> queue[i].id != id
      {
        at := at + 1;
      }
      if at == |queue| {
        return false;
      }
      assert queue[at] in queue;
      WithdrawKeeps(arrived, withdrawn, delivered + taken, queue, at);
      assert queue[at] in delivered + taken + queue;
      KeptMembers(arrived, withdrawn);
      queue := queue[..at] + queue[at + 1..];
      withdrawn := withdrawn + {id};
      return true;
    }

    /** Other handles act while the agent waits: any number of sends, halves of sends and
        withdrawals. */
    method OthersAct()
      requires Valid()
      modifies this`queue, this`nextId, this`reserved, this`arrived, this`withdrawn
      ensures Valid()
      ensures old(arrived) <= arrived
    {
      var steps: nat := *;
      while steps > 0
        invariant Valid() && old(arrived) <= arrived
      {
        var choice: nat, id: nat, kind: InboxKind, text: string := *, *, *, *;
        if choice == 0 {
          id := Reserve();
        } else if choice == 1 && id in reserved {
          PushBack(id, kind, text);
        } else {
          var found := Withdraw(id);
        }
        steps := steps - 1;
      }
    }

    /** A delivery takes everything queued. */
    method Drain() returns (messages: seq<Message>)
      requires Valid() && taken == []
      modifies this`queue, this`taken
      ensures Valid() && messages == old(queue) == taken && queue == []
    {
      messages := queue;
      queue := [];
      taken := messages;
      assert delivered + messages + [] == delivered + [] + messages;
    }

    /** The first taken message became durable. */
    ghost method Deliver()
      requires Valid() && taken != []
      modifies this`taken, this`delivered
      ensures Valid() && taken == old(taken)[1..] && delivered == old(delivered) + [old(taken)[0]]
    {
      assert delivered + taken == delivered + [taken[0]] + taken[1..];
      delivered, taken := delivered + [taken[0]], taken[1..];
    }

    /** A commit failed: the undelivered rest of the batch returns to the front, in order. */
    method PutBack(messages: seq<Message>)
      requires Valid() && messages == taken
      modifies this`queue, this`taken
      ensures Valid() && taken == [] && queue == messages + old(queue)
    {
      var i := |messages|;
      while i > 0
        invariant 0 <= i <= |messages|
        invariant queue == messages[i..] + old(queue)
      {
        i := i - 1;
        queue := [messages[i]] + queue;
      }
      assert delivered + messages + old(queue) == delivered + [] + queue;
      taken := [];
    }
  }
}
