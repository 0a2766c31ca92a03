/** The lossy fan-out of kernel output to the executions that asked for it: `iopubRouter`. */
module IopubRouter {
  import opened Wrappers
  import opened WireMessage

  const DEFAULT_BUFFER: nat := 256

  /** The messages of `log` whose parent is `id`, in order. */
  function For(id: string, log: seq<Message>): seq<Message> {
    if log == [] then []
    else
      var last := log[|log| - 1];
      For(id, log[..|log| - 1]) + if last.parentHeader.msgId == id then [last] else []
  }

  /** `part` is `whole` with some messages left out. */
  ghost predicate Subsequence(part: seq<Message>, whole: seq<Message>) {
    if part == [] then true
    else if whole == [] then false
    else
      var p, w := part[|part| - 1], whole[|whole| - 1];
      || (p == w && Subsequence(part[..|part| - 1], whole[..|whole| - 1]))
      || Subsequence(part, whole[..|whole| - 1])
  }

  ghost predicate Increasing(at: seq<nat>) {
    forall i, j :: 0 <= i < j < |at| ==> at[i] < at[j]
  }

  /** That is: its messages stand in `whole` at increasing positions. */
  lemma {:induction false} SubsequencePositions(part: seq<Message>, whole: seq<Message>) returns (at: seq<nat>)
    requires Subsequence(part, whole)
    ensures |at| == |part| && Increasing(at) && forall i :: 0 <= i < |at| ==> at[i] < |whole| && whole[at[i]] == part[i]
    decreases |whole|
  {
    if part == [] {
      at := [];
    } else {
      var front, shorter := part[..|part| - 1], whole[..|whole| - 1];
      if part[|part| - 1] == whole[|whole| - 1] && Subsequence(front, shorter) {
        at := SubsequencePositions(front, shorter);
        at := at + [|whole| - 1];
      } else {
        at := SubsequencePositions(part, shorter);
      }
    }
  }

  lemma ForAppend(id: string, log: seq<Message>, m: Message)
    ensures For(id, log + [m]) == For(id, log) + if m.parentHeader.msgId == id then [m] else []
  {
    assert (log + [m])[..|log|] == log;
  }

  lemma KeptAppend(part: seq<Message>, whole: seq<Message>, m: Message)
    requires Subsequence(part, whole)
    ensures Subsequence(part + [m], whole + [m])
  {
    assert (part + [m])[..|part|] == part && (whole + [m])[..|whole|] == whole;
  }

  lemma DroppedAppend(part: seq<Message>, whole: seq<Message>, m: Message)
    requires Subsequence(part, whole)
    ensures Subsequence(part, whole + [m])
  {
    assert (whole + [m])[..|whole|] == whole;
  }

  function Positions(id: string, log: seq<Message>, n: nat): set<nat>
    requires n <= |log|
  {
    set i: nat | i < n && log[i].parentHeader.msgId == id :: i
  }

  lemma OneMorePosition(id: string, log: seq<Message>, k: nat)
    requires k < |log|
    ensures |Positions(id, log, k + 1)| == |Positions(id, log, k)| + if log[k].parentHeader.msgId == id then 1 else 0
  {
    var before, after := Positions(id, log, k), Positions(id, log, k + 1);
    if log[k].parentHeader.msgId == id {
      assert after == before + {k};
    } else {
      assert after == before;
    }
  }

  /** `For` counts every message of its id once and no other message. */
  lemma {:induction false} ForCounts(id: string, log: seq<Message>, n: nat)
    requires n <= |log|
    ensures |For(id, log[..n])| == |Positions(id, log, n)|
  {
    hide Positions;
    if n == 0 {
      NoPositions(id, log);
    } else {
      ForCounts(id, log, n - 1);
      OneMorePosition(id, log, n - 1);
      ForAppend(id, log[..n - 1], log[n - 1]);
      assert log[..n] == log[..n - 1] + [log[n - 1]];
    }
  }

  lemma NoPositions(id: string, log: seq<Message>)
    ensures Positions(id, log, 0) == {}
  {}

  // ---- one subscription ---------------------------------------------------------------

  /** A subscription's buffered channel and drop counter. `received` is what its reader took, `from`
      and `until` the stretch of the router's log in which it was the entry of its id. */
  datatype View = View(id: string, cap: nat, ch: seq<Message>, dropped: nat, received: seq<Message>, from: nat, until: Option<nat>)

  /** Received, buffered and dropped make up what was dispatched to the id in that stretch, and what
      was received or is buffered is an in-order part of it. */
  ghost predicate Accounts(v: View, log: seq<Message>) {
    var end := if v.until.Some? then v.until.value else |log|;
    && v.from <= end <= |log|
    && |v.ch| <= v.cap
    && |v.received| + |v.ch| + v.dropped == |For(v.id, log[v.from..end])|
    && Subsequence(v.received + v.ch, For(v.id, log[v.from..end]))
  }

  /** What one dispatched message does to a subscription: a full buffer drops it, and a message of
      another parent does nothing. */
  function Offered(v: View, m: Message): View {
    if v.until.Some? || v.id != m.parentHeader.msgId then v
    else if |v.ch| < v.cap then v.(ch := v.ch + [m])
    else v.(dropped := v.dropped + 1)
  }

  /** The entry of `id` goes: a subscription routed to under it is routed to no longer. */
  function Unrouted(v: View, id: string, now: nat): View {
    if v.until == None && v.id == id then v.(until := Some(now)) else v
  }

  lemma OfferedAccounts(v: View, log: seq<Message>, m: Message)
    requires Accounts(v, log)
    ensures Accounts(Offered(v, m), log + [m])
  {
    hide Subsequence, For;
    var longer := log + [m];
    if v.until.Some? {
      assert longer[v.from..v.until.value] == log[v.from..v.until.value];
    } else {
      var mine, held := log[v.from..|log|], v.received + v.ch;
      assert longer[v.from..|longer|] == mine + [m];
      ForAppend(v.id, mine, m);
      if v.id == m.parentHeader.msgId && |v.ch| < v.cap {
        KeptAppend(held, For(v.id, mine), m);
        assert v.received + (v.ch + [m]) == held + [m];
      } else if v.id == m.parentHeader.msgId {
        DroppedAppend(held, For(v.id, mine), m);
      } else {
        assert For(v.id, mine) + [] == For(v.id, mine);
      }
    }
  }

  function AfterOffers(v: View, ms: seq<Message>): View {
    if ms == [] then v else Offered(AfterOffers(v, ms[..|ms| - 1]), ms[|ms| - 1])
  }

  /** Whatever is dispatched between two receives, an open subscription keeps the first messages of its id that
      there is room for, in order, and counts the others as dropped. So nothing is dropped while no more than
      its capacity is waiting. */
  lemma {:induction false} FirstOnesKept(v: View, ms: seq<Message>)
    requires v.until == None && |v.ch| <= v.cap
    ensures var all := v.ch + For(v.id, ms);
            AfterOffers(v, ms)
            == v.(ch := if |all| <= v.cap then all else all[..v.cap], dropped := v.dropped + if |all| <= v.cap then 0 else |all| - v.cap)
  {
    if ms == [] {
      assert v.ch + [] == v.ch;
    } else {
      var before, m := ms[..|ms| - 1], ms[|ms| - 1];
      FirstOnesKept(v, before);
      assert before + [m] == ms;
      ForAppend(v.id, before, m);
      var all := v.ch + For(v.id, before);
      if m.parentHeader.msgId == v.id {
        assert v.ch + For(v.id, ms) == all + [m];
      } else {
        assert For(v.id, before) + [] == For(v.id, before);
      }
    }
  }

  lemma UnroutedAccounts(v: View, id: string, log: seq<Message>)
    requires Accounts(v, log)
    ensures Accounts(Unrouted(v, id, |log|), log)
  {}

  class Subscription {
    const id: string
    const cap: nat
    var ch: seq<Message>
    var dropped: nat
    ghost var received: seq<Message>
    ghost const from: nat
    ghost var until: Option<nat>

    ghost function Abs(): View
      reads this
    {
      View(id, cap, ch, dropped, received, from, until)
    }

    constructor (id: string, cap: nat, ghost now: nat)
      ensures Abs() == View(id, cap, [], 0, [], now, None)
    {
      this.id, this.cap, ch, dropped := id, cap, [], 0;
      received, from, until := [], now, None;
    }
  }

  // ---- the router ---------------------------------------------------------------------

  class Router {
    var subs: map<string, Subscription>
    ghost var log: seq<Message>
    ghost var all: set<Subscription>

    ghost predicate Valid()
      reads this, all
    {
      && (forall id :: id in subs ==> subs[id] in all && subs[id].id == id && subs[id].until == None)
      && (forall s :: s in all && s.until == None ==> s.id in subs && subs[s.id] == s)
      && (forall s :: s in all ==> Accounts(s.Abs(), log))
    }

    constructor ()
      ensures Valid() && subs == map[] && log == [] && all == {}
    {
      subs, log, all := map[], [], {};
    }

    lemma Entry(id: string)
      requires Valid()
      ensures id in subs ==> subs[id] in all && subs[id].id == id && subs[id].until == None
      ensures forall s :: s in all && s.until == None && s.id == id ==> id in subs && subs[id] == s
    {}

    /** Taking the entry of `id` away, and perhaps putting a new subscription in its place. */
    twostate lemma EntryReplaced(id: string, new added: set<Subscription>)
      requires old(Valid()) && log == old(log) && all == old(all) + added
      requires forall o :: o in old(all) ==> o.Abs() == Unrouted(old(o.Abs()), id, |log|)
      requires forall s :: s in added ==> s !in old(all) && Accounts(s.Abs(), log) && s.id == id && s.until == None && subs == old(subs)[id := s]
      requires added == {} ==> subs == old(subs) - {id}
      ensures Valid()
    {
      hide Accounts;
      forall o | o in all
        ensures Accounts(o.Abs(), log)
      {
        if o in old(all) {
          UnroutedAccounts(old(o.Abs()), id, log);
        }
      }
      forall o | o in all && o.until == None
        ensures o.id in subs && subs[o.id] == o
      {
        if o in old(all) {
          assert o.id != id && old(o.until) == None;
        }
      }
    }

    /** A new subscription takes over its id; one that had the id before is no longer routed to. */
    method Subscribe(parentMsgId: string, buf: int) returns (s: Subscription)
      requires Valid()
      modifies this, all
      ensures Valid() && fresh(s) && all == old(all) + {s} && log == old(log)
      ensures subs == old(subs)[parentMsgId := s]
      ensures s.Abs() == View(parentMsgId, if buf <= 0 then 256 else buf, [], 0, [], |log|, None)
      ensures forall o :: o in old(all) ==> o.Abs() == Unrouted(old(o.Abs()), parentMsgId, |log|)
    {
      hide Valid, Accounts;
      Entry(parentMsgId);
      s := new Subscription(parentMsgId, if buf <= 0 then DEFAULT_BUFFER else buf, |log|);
      NewAccounts(s.Abs(), log);
      if parentMsgId in subs {
        subs[parentMsgId].until := Some(|log|);
      }
      subs := subs[parentMsgId := s];
      all := all + {s};
      EntryReplaced(parentMsgId, {s});
    }

    /** The closure `Subscribe` returns. It removes the entry of the id, whichever subscription that is;
        its own unless the id was subscribed again. The count returned then makes up exactly for
        what was neither received nor is still buffered. */
    method Unsubscribe(s: Subscription) returns (dropped: nat)
      requires Valid() && s in all
      modifies this`subs, all
      ensures Valid() && subs == old(subs) - {s.id}
      ensures forall o :: o in all ==> o.Abs() == Unrouted(old(o.Abs()), s.id, |log|)
      ensures old(s.until) == None ==> |s.received| + |s.ch| + dropped == |For(s.id, log[s.from..|log|])|
    {
      UnsubscribeCount(s);
      hide Valid, Accounts;
      Entry(s.id);
      if s.id in subs {
        subs[s.id].until := Some(|log|);
      }
      subs := subs - {s.id};
      dropped := s.dropped;
      EntryReplaced(s.id, {});
    }

    lemma UnsubscribeCount(s: Subscription)
      requires Valid() && s in all
      ensures s.from <= |log|
      ensures s.until == None ==> |s.received| + |s.ch| + s.dropped == |For(s.id, log[s.from..|log|])|
    {
      assert Accounts(s.Abs(), log);
    }

    /** Never waits. The next state of every subscription depends on its own state alone. */
    method Dispatch(m: Message)
      requires Valid()
      modifies this`log, all
      ensures Valid() && log == old(log) + [m]
      ensures forall s :: s in all ==> s.Abs() == Offered(old(s.Abs()), m)
    {
      hide Accounts, For, Subsequence;
      forall s | s in all
        ensures Accounts(Offered(s.Abs(), m), log + [m])
      {
        OfferedAccounts(s.Abs(), log, m);
      }
      var pid := m.parentHeader.msgId;
      if pid in subs {
        var s := subs[pid];
        if |s.ch| < s.cap {
          s.ch := s.ch + [m];
        } else {
          s.dropped := s.dropped + 1;
        }
      }
      log := log + [m];
    }

    /** The consumer's receive from its channel. */
    method Receive(s: Subscription) returns (m: Option<Message>)
      requires Valid() && s in all
      modifies s
      ensures Valid()
      ensures m == (if old(s.ch) == [] then None else Some(old(s.ch)[0]))
      ensures s.Abs() == if old(s.ch) == [] then old(s.Abs()) else old(s.Abs()).(ch := old(s.ch)[1..], received := old(s.received) + [old(s.ch)[0]])
    {
      hide Accounts;
      if |s.ch| == 0 {
        return None;
      }
      ReceivedAccounts(s.Abs(), log);
      m := Some(s.ch[0]);
      s.received := s.received + [s.ch[0]];
      s.ch := s.ch[1..];
    }
  }

  lemma NewAccounts(v: View, log: seq<Message>)
    requires v.from == |log| && v.until == None && v.ch == [] && v.received == [] && v.dropped == 0
    ensures Accounts(v, log)
  {}

  lemma ReceivedAccounts(v: View, log: seq<Message>)
    requires Accounts(v, log) && v.ch != []
    ensures Accounts(v.(ch := v.ch[1..], received := v.received + [v.ch[0]]), log)
  {
    assert v.received + v.ch == (v.received + [v.ch[0]]) + v.ch[1..];
  }
}
