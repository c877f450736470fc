/** The queue operations in place: redis_realm, and the two drains with their loops. */
module QueueRealm {
  import opened OfflineQueue

  /** The peers `x` is told about, in order. */
  function AboutsTo(sent: seq<(Id, Id)>, x: Id): seq<Id> {
    if sent == [] then []
    else
      var n := |sent| - 1;
      AboutsTo(sent[..n], x) + if sent[n].0 == x then [sent[n].1] else []
  }

  lemma AboutsSnoc(sent: seq<(Id, Id)>, p: (Id, Id), x: Id)
    ensures AboutsTo(sent + [p], x) == AboutsTo(sent, x) + if p.0 == x then [p.1] else []
  {
    assert (sent + [p])[..|sent|] == sent;
  }

  /** Each sender is told of a peer as often as a notice about it was sent to that sender. */
  lemma {:induction false} AboutsCounted(sent: seq<(Id, Id)>, x: Id, y: Id)
    ensures multiset(AboutsTo(sent, x))[y] == multiset(sent)[(x, y)]
    decreases |sent|
  {
    if sent != [] {
      var init, p := sent[..|sent| - 1], sent[|sent| - 1];
      assert sent == init + [p];
      AboutsCounted(init, x, y);
    }
  }

  /** The senders after `sent` went out. */
  function Told(notices: map<Id, seq<Id>>, sent: seq<(Id, Id)>): map<Id, seq<Id>> {
    map x | x in notices :: notices[x] + AboutsTo(sent, x)
  }

  lemma ToldNothing(notices: map<Id, seq<Id>>)
    ensures Told(notices, []) == notices
  {
    forall x | x in notices ensures Told(notices, [])[x] == notices[x] {
      assert notices[x] + [] == notices[x];
    }
  }

  lemma ToldOne(mine: seq<Id>, sent: seq<(Id, Id)>, src: Id, dst: Id, x: Id)
    ensures mine + AboutsTo(sent + [(src, dst)], x)
         == if x == src then (mine + AboutsTo(sent, x)) + [dst] else mine + AboutsTo(sent, x)
  {
    AboutsSnoc(sent, (src, dst), x);
  }

  lemma ToldSnoc(notices: map<Id, seq<Id>>, sent: seq<(Id, Id)>, src: Id, dst: Id)
    requires src in notices
    ensures Told(notices, sent + [(src, dst)]) == Told(notices, sent)[src := Told(notices, sent)[src] + [dst]]
  {
    var told, more := Told(notices, sent), Told(notices, sent + [(src, dst)]);
    forall x | x in notices ensures more[x] == if x == src then told[x] + [dst] else told[x] {
      ToldOne(notices[x], sent, src, dst, x);
    }
    assert more.Keys == told.Keys == told[src := told[src] + [dst]].Keys;
  }

  /** What was on a sender stays there, in front of what it is told. */
  lemma ToldKeeps(notices: map<Id, seq<Id>>, sent: seq<(Id, Id)>, x: Id, y: Id)
    requires x in notices
    ensures Told(notices, sent).Keys == notices.Keys && notices[x] <= Told(notices, sent)[x]
    ensures multiset(Told(notices, sent)[x])[y] == multiset(notices[x])[y] + multiset(sent)[(x, y)]
  {
    AboutsCounted(sent, x, y);
  }

  /** The Redis keys that hold queues, and the frames on each registered sender. */
  class Realm {
    var queues: map<Id, seq<Item>>
    var queueMeta: map<Id, int>
    var notices: map<Id, seq<Id>>     // EXPIRE frames per registered sender, by the peer they are about
    var channels: map<Id, seq<Msg>>   // messages per delivery channel

    ghost function Keys(): Redis
      reads this
    {
      Redis(queues, queueMeta)
    }

    constructor ()
      ensures Keys() == INIT.redis && notices == map[] && channels == map[]
    {
      queues, queueMeta, notices, channels := map[], map[], map[], map[];
    }

    /** The push of the machine: the queue grows at its end, and is stamped with the time of
        its newest message, so that an age test passes only `timeout` after it. */
    method AddMessageToQueue(m: Msg, now: int)
      modifies this`queues, this`queueMeta
      ensures Keys() == Pushed(old(Keys()), m, now)
      ensures forall timeout: nat, t: int :: Stale(timeout, Keys(), m.dst, t) <==> t - now >= timeout
    {
      var q := if m.dst in queues then queues[m.dst] else [];
      queues := queues[m.dst := q + [Item(m, now)]];
      queueMeta := queueMeta[m.dst := now];
    }

    method ReadAllMessages(d: Id, now: int) returns (ms: seq<Msg>)
      modifies this`queueMeta
      ensures Keys() == Touched(old(Keys()), d, now) && ms == Msgs(SeqAt(queues, d))
    {
      queueMeta := queueMeta[d := now];
      ms := Msgs(if d in queues then queues[d] else []);
    }

    method ClearMessageQueue(d: Id)
      modifies this`queues, this`queueMeta
      ensures Keys() == Cleared(old(Keys()), d)
    {
      queues := queues - {d};
      queueMeta := queueMeta - {d};
    }

    /** The `seen` loop: exactly the notices of the machine, each on its sender's channel. */
    method NotifySenders(ms: seq<Msg>) returns (sent: seq<(Id, Id)>)
      modifies this`notices
      ensures sent == Notices(old(notices).Keys, ms, {})
      ensures notices == Told(old(notices), sent)
    {
      sent := [];
      ToldNothing(notices);
      var seen: set<string> := {};
      ghost var online := notices.Keys;
      for i := 0 to |ms|
        invariant sent + Notices(online, ms[i..], seen) == Notices(online, ms, {})
        invariant notices == Told(old(notices), sent)
      {
        var src, dst := ms[i].src, ms[i].dst;
        var key := SeenKey(src, dst);
        assert ms[i..][1..] == ms[i + 1..];
        if key !in seen {
          seen := seen + {key};
          if src in notices {
            ToldSnoc(old(notices), sent, src, dst);
            notices := notices[src := notices[src] + [dst]];
            sent := sent + [(src, dst)];
          }
        }
      }
    }

    /** The body of the sweep for one queue, undisturbed: skip it unless it has been quiet
        for the timeout, else touch, read, notify and clear. */
    method SweepQueue(d: Id, timeout: nat, start: int, now: int) returns (swept: bool, sent: seq<(Id, Id)>)
      modifies this
      ensures swept <==> Stale(timeout, old(Keys()), d, start)
      ensures !swept ==> unchanged(this) && sent == []
      ensures swept ==> Keys() == Cleared(Touched(old(Keys()), d, now), d) == Cleared(old(Keys()), d)
      ensures swept ==> sent == Notices(old(notices).Keys, Msgs(SeqAt(old(queues), d)), {})
      ensures notices == Told(old(notices), sent) && channels == old(channels)
    {
      swept, sent := false, [];
      ToldNothing(notices);
      var lastReadAt := if d in queueMeta then queueMeta[d] else 0;
      if start - lastReadAt < timeout {
        return;
      }
      swept := true;
      var ms := ReadAllMessages(d, now);
      sent := NotifySenders(ms);
      ClearMessageQueue(d);
      assert old(queueMeta)[d := now] - {d} == old(queueMeta) - {d};
    }

    /** `deliver_queued_messages`, undisturbed: everything read goes to the channel in order
        until it breaks after `room` messages; the queue is cleared all the same, unless
        there was nothing in it. */
    method DeliverQueuedMessages(d: Id, now: int, room: nat) returns (sent: seq<Msg>)
      modifies this
      ensures var q := SeqAt(old(queues), d);
        && sent == Msgs(if |q| <= room then q else q[..room])
        && channels == old(channels)[d := SeqAt(old(channels), d) + sent]
        && Keys() == if q == [] then Touched(old(Keys()), d, now) else Cleared(old(Keys()), d)
      ensures notices == old(notices)
    {
      ghost var q := SeqAt(queues, d);
      var ms := ReadAllMessages(d, now);
      sent := SendUntilBroken(d, ms, room);
      if |ms| > 0 {
        ClearMessageQueue(d);
        assert old(queueMeta)[d := now] - {d} == old(queueMeta) - {d};
      }
      assert Msgs(q)[..|sent|] == Msgs(q[..|sent|]) && q[..|q|] == q;
    }

    /** The send loop with its break. */
    method SendUntilBroken(d: Id, ms: seq<Msg>, room: nat) returns (sent: seq<Msg>)
      modifies this`channels
      ensures sent == if |ms| <= room then ms else ms[..room]
      ensures channels == old(channels)[d := SeqAt(old(channels), d) + sent]
    {
      ghost var base := SeqAt(channels, d);
      var channel := if d in channels then channels[d] else [];
      sent := [];
      var i := 0;
      while i < |ms| && i < room
        invariant 0 <= i <= |ms| && i <= room
        invariant sent == ms[..i] && channel == base + sent
      {
        channel := channel + [ms[i]];
        sent := sent + [ms[i]];
        i := i + 1;
      }
      channels := channels[d := channel];
      assert ms[..|ms|] == ms;
    }
  }
}
