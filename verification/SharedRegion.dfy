/**
 The shared region as the processes update it: tables and slots changed in
 place by loops. Each method is one critical section, or a part of one, and is
 proved to take exactly the step that the transition system describes.
 */
module SharedRegions {
  import opened Options
  import opened Bags
  import opened FixVectors
  import opened FixMaps
  import opened Mailboxes
  import opened MailSlots

  predicate MsgBefore(a: Mail, b: Mail) {
    a.msg < b.msg
  }

  function NonZero(): Mail -> bool {
    (m: Mail) => m.msg != 0
  }

  function Marked(s: seq<Mail>, taken: Mail -> bool): (r: seq<Mail>)
    ensures |r| == |s|
    ensures forall i :: 0 <= i < |s| ==> r[i] == if taken(s[i]) then EMPTY_MAIL else s[i]
  {
    seq(|s|, i requires 0 <= i < |s| => if taken(s[i]) then EMPTY_MAIL else s[i])
  }

  lemma {:induction false} MarkedFilter(s: seq<Mail>, taken: Mail -> bool)
    ensures Filter(Marked(s, taken), NonZero()) == Filter(s, Stays(taken))
  {
    if s == [] {
      assert Marked(s, taken) == [];
    } else {
      MarkedFilter(s[1..], taken);
      assert Marked(s, taken)[1..] == Marked(s[1..], taken);
    }
  }

  /** A sorted sequence cut where its zero messages end is the filter of the others. */
  lemma TrimIsFilter(s: seq<Mail>, j: nat)
    requires j <= |s| && SortedByMsg(s)
    requires forall i :: 0 <= i < j ==> s[i].msg == 0
    requires j < |s| ==> s[j].msg != 0
    ensures s[j..] == Filter(s, NonZero())
    ensures SortedByMsg(s[j..])
  {
    hide Filter;
    var zeros, rest := s[..j], s[j..];
    forall i | 0 <= i < |rest|
      ensures rest[i].msg != 0
    {
      assert s[j].msg <= s[j + i].msg;
    }
    FilterNone(zeros, NonZero());
    FilterAll(rest, NonZero());
    FilterConcat(zeros, rest, NonZero());
    assert s == zeros + rest && [] + rest == rest;
  }

  /** Mark, sort and trim together are a filter and a sort of what it keeps. */
  lemma MarkSortTrim(was: seq<Mail>, sorted: seq<Mail>, j: nat, taken: Mail -> bool)
    requires SortedByMsg(sorted) && multiset(sorted) == multiset(Marked(was, taken)) && j <= |sorted|
    requires forall i :: 0 <= i < j ==> sorted[i].msg == 0
    requires j < |sorted| ==> sorted[j].msg != 0
    ensures Rearranged(sorted[j..], Filter(was, Stays(taken)))
  {
    TrimIsFilter(sorted, j);
    FilterPermutation(sorted, Marked(was, taken), NonZero());
    MarkedFilter(was, taken);
  }

  lemma FilterSnoc<T(!new)>(s: seq<T>, i: nat, p: T -> bool)
    requires i < |s|
    ensures Filter(s[..i + 1], p) == Filter(s[..i], p) + if p(s[i]) then [s[i]] else []
  {
    assert s[..i + 1] == s[..i] + [s[i]];
    FilterConcat(s[..i], [s[i]], p);
  }

  lemma MarkedNothing(s: seq<Mail>, taken: Mail -> bool)
    ensures Marked(s[..0], taken) + s[0..] == s
  {
  }

  lemma MarkedSnoc(s: seq<Mail>, i: nat, taken: Mail -> bool)
    requires i < |s|
    ensures Marked(s[..i + 1], taken) + s[i + 1..]
            == (Marked(s[..i], taken) + s[i..])[i := if taken(s[i]) then EMPTY_MAIL else s[i]]
    ensures (Marked(s[..i], taken) + s[i..])[i] == s[i]
  {
  }

  /** Copy out the taken mails and mark their cells empty. */
  method MarkTaken(v: FixVector<Mail>, taken: Mail -> bool) returns (out: seq<Mail>)
    requires v.Valid()
    modifies v.buffer
    ensures v.Valid()
    ensures out == Filter(old(v.Contents()), taken)
    ensures v.Contents() == Marked(old(v.Contents()), taken)
  {
    hide Filter, Marked;
    ghost var was := v.Contents();
    out := [];
    FilterNone([], taken);
    MarkedNothing(was, taken);
    for i := 0 to v.count
      invariant v.Valid()
      invariant out == Filter(was[..i], taken)
      invariant v.Contents() == Marked(was[..i], taken) + was[i..]
    {
      FilterSnoc(was, i, taken);
      MarkedSnoc(was, i, taken);
      var m := v.At(i);
      if taken(m.value) {
        out := out + [m.value];
        v.Store(i, EMPTY_MAIL);
      }
    }
    assert was[..v.count] == was && was[v.count..] == [];
  }

  lemma WithoutHead<T>(s: seq<T>, n: nat)
    requires n < |s|
    ensures Spliced(s[n..], 0, 1) == s[n + 1..]
  {
  }

  /** Remove empty cells from the front, one splice at a time. */
  method TrimFront(v: FixVector<Mail>) returns (ghost trimmed: nat)
    requires v.Valid()
    modifies v`count, v.buffer
    ensures v.Valid() && trimmed <= |old(v.Contents())|
    ensures v.Contents() == old(v.Contents())[trimmed..]
    ensures forall i :: 0 <= i < trimmed ==> old(v.Contents())[i].msg == 0
    ensures trimmed < |old(v.Contents())| ==> old(v.Contents())[trimmed].msg != 0
  {
    hide Spliced;
    ghost var was := v.Contents();
    trimmed := 0;
    var head := v.At(0);
    while v.count > 0 && head.value.msg == 0
      invariant v.Valid() && 0 <= trimmed <= |was|
      invariant v.Contents() == was[trimmed..]
      invariant forall i :: 0 <= i < trimmed ==> was[i].msg == 0
      invariant head == if v.count > 0 then Some(v.Contents()[0]) else None
      decreases v.count
    {
      v.Splice(0, 1);
      WithoutHead(was, trimmed);
      trimmed := trimmed + 1;
      head := v.At(0);
    }
  }

  /** Take the mails that satisfy taken out of a vector; what is left is sorted and free of empty cells. */
  method TakeOut(v: FixVector<Mail>, taken: Mail -> bool) returns (out: seq<Mail>)
    requires v.Valid()
    modifies v`count, v.buffer
    ensures v.Valid()
    ensures out == Filter(old(v.Contents()), taken)
    ensures Rearranged(v.Contents(), Filter(old(v.Contents()), Stays(taken)))
  {
    hide Filter;
    ghost var was := v.Contents();
    out := MarkTaken(v, taken);
    v.Sort(MsgBefore);
    ghost var sorted := v.Contents();
    ghost var j := TrimFront(v);
    MarkSortTrim(was, sorted, j, taken);
  }

  /** One more user of a process, whose entry is made for the first. */
  method CountUp(procs: FixMap<nat>, pid: nat) returns (users: nat)
    requires procs.Valid()
    requires pid in procs.View() || procs.count < procs.entries.Length
    modifies procs`count, procs.entries
    ensures procs.Valid()
    ensures users == 1 + if pid in old(procs.View()) then old(procs.View())[pid] else 0
    ensures procs.View() == old(procs.View())[pid := users]
  {
    hide AsMap, Rank, Has, Increasing, WithKey;
    var found := procs.Find(pid);
    users := 1 + if found.Some? then found.value else 0;
    var index := procs.Insert(pid);
    procs.Store(index, users);
  }

  /** One user fewer; the entry of a process goes with its last user. */
  method CountDown(procs: FixMap<nat>, pid: nat) returns (gone: bool)
    requires procs.Valid()
    requires pid in procs.View() ==> procs.View()[pid] > 0
    modifies procs`count, procs.entries
    ensures procs.Valid()
    ensures gone <==> pid in old(procs.View()) && old(procs.View())[pid] == 1
    ensures procs.View() == if pid !in old(procs.View()) then old(procs.View())
                            else if gone then old(procs.View()) - {pid}
                            else old(procs.View())[pid := old(procs.View())[pid] - 1]
  {
    hide AsMap, Rank, Increasing, WithoutKey;
    gone := false;
    var index := procs.FindIndex(pid);
    if index >= 0 {
      Lookup(procs.Contents(), pid);
      var users := procs.entries[index].value - 1;
      if users == 0 {
        gone := procs.Unset(pid);
      } else {
        procs.Store(index, users);
      }
    }
  }

  class SharedRegion {
    const listen: FixVector<Mail>
    const queue: FixVector<Mail>
    const payload: array<Slot>
    const procs: FixMap<nat>
    var hint: nat
    var instances: nat

    ghost predicate Valid()
      reads this, listen, listen.buffer, queue, queue.buffer, payload, procs, procs.entries
    {
      && listen != queue && listen.buffer != queue.buffer
      && listen.Valid() && queue.Valid() && procs.Valid()
      && listen.buffer.Length == LISTEN_MAX && queue.buffer.Length == QUEUE_MAX
      && WellFormed(View())
    }

    ghost function View(): Region
      reads this, listen, listen.buffer, queue, queue.buffer, payload, procs, procs.entries
      requires listen.Valid() && queue.Valid() && procs.Valid()
    {
      Region(listen.Contents(), queue.Contents(), payload[..], hint, procs.View(), instances)
    }

    /** The region as the first process to map it sets it up, whatever the memory held. */
    constructor (listen: FixVector<Mail>, queue: FixVector<Mail>, payload: array<Slot>, procs: FixMap<nat>)
      requires listen != queue && listen.buffer != queue.buffer
      requires listen.buffer.Length == LISTEN_MAX && queue.buffer.Length == QUEUE_MAX
      requires procs.entries.Length <= 0x7FFF_FFFF
      requires payload.Length == PAYLOAD_SLOTS
      requires forall i :: 0 <= i < payload.Length ==> |payload[i].data| == PAYLOAD_MAX
      modifies listen`count, queue`count, procs`count, payload
      ensures Valid()
      ensures this.listen == listen && this.queue == queue && this.payload == payload && this.procs == procs
      ensures Initial(World(View(), [], map[], multiset{}, multiset{}, multiset{}, multiset{}))
    {
      this.listen, this.queue, this.payload, this.procs := listen, queue, payload, procs;
      this.hint, this.instances := 0, 0;
      new;
      procs.count, listen.count, queue.count := 0, 0, 0;
      for i := 0 to payload.Length
        invariant listen.Valid() && queue.Valid() && procs.Valid()
        invariant listen.Contents() == [] && queue.Contents() == [] && procs.Contents() == []
        invariant forall k :: 0 <= k < payload.Length ==> |payload[k].data| == PAYLOAD_MAX
        invariant forall k :: 0 <= k < i ==> payload[k] == Cleared(payload[k])
        invariant hint == 0 && instances == 0
      {
        payload[i] := Cleared(payload[i]);
      }
      assert procs.View() == map[];
    }

    /**
     Reserve a slot: the first one, looking from the hint on, that is unused or was
     processed and sent at least five seconds ago; -1 exactly if there is none.
     */
    method AllocPayloadSlot(now: int) returns (idx: int)
      requires Valid()
      modifies `hint, payload
      ensures Valid()
      ensures -1 <= idx < PAYLOAD_SLOTS
      ensures idx == NextSlot(old(View().slots), old(hint) % PAYLOAD_SLOTS, 0, now)
      ensures View() == if 0 <= idx < PAYLOAD_SLOTS then Reserved(old(View()), idx) else old(View())
      ensures idx == -1 <==> forall i :: 0 <= i < 384 ==> !Available(old(View().slots)[i], now)
      ensures idx >= 0 ==>
                && FirstAvailable(old(View().slots), old(hint), now, idx)
                && !payload[idx].inUse && hint == idx + 1
                && forall i :: 0 <= i < 384 && i != idx ==> View().slots[i] == old(View().slots)[i]
    {
      AllocationExactly(View().slots, hint, now);
      hide FirstAvailable, Available;
      var start := hint % PAYLOAD_SLOTS;
      ghost var slots := payload[..];
      var n := 0;
      while n < PAYLOAD_SLOTS
        invariant 0 <= n <= PAYLOAD_SLOTS
        invariant NextSlot(slots, start, 0, now) == NextSlot(slots, start, n, now)
        invariant payload[..] == slots && hint == old(hint)
      {
        idx := (start + n) % PAYLOAD_SLOTS;
        assert idx == Circular(start, n) && payload[idx] == slots[idx];
        if !payload[idx].inUse {
          hint := idx + 1;
          assert payload[..] == slots[idx := slots[idx]];
          return;
        }
        if payload[idx].processed && now - payload[idx].sentMs >= REUSE_AFTER_MS {
          payload[idx] := Cleared(payload[idx]);
          hint := idx + 1;
          return;
        }
        n := n + 1;
      }
      idx := -1;
    }

    /** Queue one copy for one listener. */
    method SendTo(to: Mail, fromPid: nat, buf: seq<Byte>, allocMs: int, sentMs: int) returns (queued: bool)
      requires Valid() && |buf| <= PAYLOAD_MAX
      modifies `hint, payload, queue`count, queue.buffer
      ensures Valid()
      ensures View() == Sent(old(View()), to, fromPid, buf, allocMs, sentMs)
      ensures queued <==> View().queue != old(View().queue)
    {
      SentWellFormed(View(), to, fromPid, buf, allocMs, sentMs);
      var m := to.(idx := -1);
      if buf != [] {
        var idx := AllocPayloadSlot(allocMs);
        if idx < 0 {
          return false;
        }
        payload[idx] := Filled(payload[idx], to, fromPid, buf, sentMs);
        m := to.(idx := idx);
      }
      queued := queue.PushBack(m);
      if !queued && m.idx >= 0 {
        payload[m.idx] := Cleared(payload[m.idx]);
      }
    }

    /** By bisection, the first entry of a message in the listener table; -1 if it has none. */
    method FirstListener(msg: nat) returns (start: int)
      requires Valid() && SortedByMsg(listen.Contents())
      ensures start == -1 <==> forall m :: m in listen.Contents() ==> m.msg != msg
      ensures start != -1 ==>
                && 0 <= start < |listen.Contents()| && listen.Contents()[start].msg == msg
                && forall i :: 0 <= i < start ==> listen.Contents()[i].msg < msg
    {
      start := -1;
      var left, right := 0, listen.count;
      while left < right
        invariant 0 <= left <= right <= |listen.Contents()|
        invariant forall i :: 0 <= i < left ==> listen.Contents()[i].msg < msg
        invariant forall i :: right <= i < |listen.Contents()| ==> listen.Contents()[i].msg >= msg
      {
        var mid := left + (right - left) / 2;
        var m := listen.At(mid);
        if m.value.msg < msg {
          left := mid + 1;
        } else {
          right := mid;
        }
      }
      var first := listen.At(left);
      if first.Some? && first.value.msg == msg {
        start := left;
        assert first.value in listen.Contents();
      }
    }

    /**
     Notify the listeners of a message. The answer says only whether the message
     has a listener at all: it is true even if that is the sender itself, or if
     every copy was dropped. Woken are the processes whose workers are signalled.
     */
    method Notify(from: nat, fromPid: nat, msg: nat, buf: Option<seq<Byte>>, size: nat, clock: nat -> int)
      returns (ok: bool, woken: set<nat>)
      requires Valid() && SortedByMsg(listen.Contents())
      requires buf.Some? ==> |buf.value| >= size
      modifies `hint, payload, queue`count, queue.buffer
      ensures Valid()
      ensures ok <==> from != 0 && (size > 0 ==> buf.Some?) && size <= 512
                      && exists m :: m in old(View().listen) && m.msg == msg
      ensures View() == if ok then Notified(old(View()), from, fromPid, msg, if size > 0 then buf.value[..size] else [], clock)
                        else old(View())
      ensures woken == Addressees(View().queue[|old(View().queue)|..]) * View().procs.Keys
    {
      if from == 0 || (size > 0 && buf.None?) || size > PAYLOAD_MAX {
        return false, {};
      }
      var bytes: seq<Byte> := if size > 0 then buf.value[..size] else [];
      var start := FirstListener(msg);
      if start == -1 {
        return false, {};
      }
      ok := true;
      var pids := FanOutLoop(start, from, fromPid, msg, bytes, clock);
      woken := Broadcast(pids);
    }

    /** Signal the workers of the processes that are in the table. */
    method Broadcast(pids: set<nat>) returns (woken: set<nat>)
      requires Valid()
      ensures woken == pids * View().procs.Keys
    {
      woken := {};
      var rest := pids;
      while rest != {}
        invariant rest <= pids && woken == (pids - rest) * View().procs.Keys
        decreases rest
      {
        var pid :| pid in rest;
        var found := procs.Find(pid);
        if found.Some? {
          woken := woken + {pid};
        }
        rest := rest - {pid};
      }
    }

    /** The next copy of a fan-out, to its k-th recipient; a queued one adds its process to pids. */
    method SendNext(ghost was: Region, ghost tos: seq<Mail>, k: nat, to: Mail, fromPid: nat, buf: seq<Byte>, clock: nat -> int,
                    pids: set<nat>) returns (pids': set<nat>)
      requires Valid() && |buf| <= PAYLOAD_MAX && WellFormed(was) && k < |tos| && to == tos[k]
      requires View() == FanOut(was, tos, k, fromPid, buf, clock)
      requires pids == Addressees(View().queue[|was.queue|..])
      modifies `hint, payload, queue`count, queue.buffer
      ensures Valid() && View() == FanOut(was, tos, k + 1, fromPid, buf, clock)
      ensures pids' == Addressees(View().queue[|was.queue|..])
    {
      hide Sent, FanOut, Addressees, Increasing, AsMap;
      ghost var before := View();
      FanOutStep(was, tos, k + 1, fromPid, buf, clock);
      SentAddressee(before, to, fromPid, buf, clock(2 * k), clock(2 * k + 1), |was.queue|);
      var queued := SendTo(to, fromPid, buf, clock(2 * k), clock(2 * k + 1));
      pids' := if queued then pids + {to.pid} else pids;
    }

    /** Send a copy to each recipient from table index start on, until the message changes; pids are their processes. */
    method FanOutLoop(start: nat, from: nat, fromPid: nat, msg: nat, buf: seq<Byte>, clock: nat -> int) returns (pids: set<nat>)
      requires Valid() && SortedByMsg(listen.Contents()) && |buf| <= PAYLOAD_MAX
      requires start < |listen.Contents()| && listen.Contents()[start].msg == msg
      requires forall i :: 0 <= i < start ==> listen.Contents()[i].msg < msg
      modifies `hint, payload, queue`count, queue.buffer
      ensures Valid()
      ensures View() == Notified(old(View()), from, fromPid, msg, buf, clock)
      ensures pids == Addressees(View().queue[|old(View().queue)|..])
    {
      hide Filter, Sent, FanOut, Increasing, AsMap, Addressees, WellFormed;
      FanOutNone(View(), Recipients(listen.Contents(), msg, from), fromPid, buf, clock);
      ghost var was, table := View(), listen.Contents();
      ghost var p, tos := IsRecipient(msg, from), Recipients(table, msg, from);
      var i, k := start, 0;
      pids := {};
      FilterNone(table[..start], p);
      while i < listen.count
        invariant Valid() && listen.Contents() == table && start <= i <= |table|
        invariant k == |Filter(table[..i], p)| <= |tos|
        invariant View() == FanOut(was, tos, k, fromPid, buf, clock)
        invariant pids == Addressees(View().queue[|was.queue|..])
        decreases |table| - i
      {
        var to := listen.At(i);
        if to.value.msg != msg {
          break;
        }
        FilterStep(table, i, p);
        if to.value.obj != from {
          pids := SendNext(was, tos, k, to.value, fromPid, buf, clock, pids);
          k := k + 1;
        }
        i := i + 1;
      }
      FilterNone(table[i..], p);
      FilterSplit(table, i, p);
    }

    /** The mails of a process, in queue order, taken off the queue. */
    method Drain(pid: nat) returns (locals: seq<Mail>)
      requires Valid()
      modifies queue`count, queue.buffer
      ensures Valid()
      ensures locals == Filter(old(View().queue), OwnMail(pid))
      ensures Rearranged(View().queue, Filter(old(View().queue), Stays(OwnMail(pid))))
      ensures View() == old(View()).(queue := View().queue)
    {
      locals := TakeOut(queue, OwnMail(pid));
    }

    /** The bytes for a drained mail, if its slot fits. */
    method CheckSlot(m: Mail, pid: nat) returns (data: Option<seq<Byte>>)
      requires Valid()
      ensures data == if 0 <= m.idx < PAYLOAD_SLOTS && SlotMatches(View().slots[m.idx], m, pid)
                      then Some(Bytes(View().slots[m.idx])) else None
      ensures data.Some? <==> 0 <= m.idx < 384 && payload[m.idx].inUse && payload[m.idx].msg == m.msg && payload[m.idx].toPid == pid
      ensures data.Some? ==> data.value == payload[m.idx].data[..payload[m.idx].size]
    {
      data := None;
      if 0 <= m.idx < PAYLOAD_SLOTS {
        var s := payload[m.idx];
        if s.inUse && s.msg == m.msg && s.toPid == pid {
          data := Some(s.data[..s.size]);
        }
      }
    }

    method MarkProcessed(idx: int, now: int)
      requires Valid() && 0 <= idx < PAYLOAD_SLOTS
      modifies payload
      ensures Valid()
      ensures View() == old(View()).(slots := Mailboxes.MarkedProcessed(old(View().slots), idx, now))
    {
      if payload[idx].inUse {
        payload[idx] := payload[idx].(processed := true, processedMs := now);
      }
    }

    /** Look at one slot, and free it if it is processed and of the given age. */
    method CollectSlot(i: nat, now: int, after: int) returns (held: bool, unread: bool)
      requires i < payload.Length
      modifies payload
      ensures held == old(payload[i]).inUse && unread == (held && !old(payload[i]).processed)
      ensures var s := old(payload[i]);
              payload[..] == old(payload[..])[i := if s.inUse && s.processed && now - s.sentMs >= after then Cleared(s) else s]
    {
      held, unread := payload[i].inUse, payload[i].inUse && !payload[i].processed;
      if held && payload[i].processed && now - payload[i].sentMs >= after {
        payload[i] := Cleared(payload[i]);
      } else {
        assert payload[..] == payload[..][i := payload[i]];
      }
    }

    /** Free every processed slot of the given age; the counts are of slots in use and of unprocessed ones before. */
    method ProfileAndGC(now: int, after: int) returns (inuse: nat, pending: nat)
      requires Valid()
      modifies payload
      ensures Valid()
      ensures inuse == Count(old(View().slots), (s: Slot) => s.inUse)
      ensures pending == Count(old(View().slots), (s: Slot) => s.inUse && !s.processed)
      ensures View() == old(View()).(slots := Collected(old(View().slots), now, after))
    {
      ghost var was := payload[..];
      assert |was| == payload.Length == PAYLOAD_SLOTS;
      hide Collected, Count, Increasing, AsMap, WellFormed, Cleared;
      ghost var used, waiting := (s: Slot) => s.inUse, (s: Slot) => s.inUse && !s.processed;
      inuse, pending := 0, 0;
      CollectedNone(was, now, after);
      CountNone(was, used);
      CountNone(was, waiting);
      for i := 0 to PAYLOAD_SLOTS
        modifies payload
        invariant listen.Valid() && queue.Valid() && procs.Valid() && View() == old(View()).(slots := payload[..])
        invariant payload[..] == Collected(was[..i], now, after) + was[i..]
        invariant inuse == Count(was[..i], used) && pending == Count(was[..i], waiting)
      {
        CountStep(was, i, used);
        CountStep(was, i, waiting);
        CollectedStep(was, i, now, after);
        var held, unread := CollectSlot(i, now, after);
        inuse := if held then inuse + 1 else inuse;
        pending := if unread then pending + 1 else pending;
      }
      assert was[..PAYLOAD_SLOTS] == was;
      CollectedNone(was, now, after);
      CollectedWellFormed(old(View()), now, after);
    }

    /** Whether the triple is in the table already. */
    method FindListener(obj: nat, pid: nat, msg: nat) returns (duplicated: bool)
      requires Valid()
      ensures duplicated <==> IsRegistered(listen.Contents(), obj, pid, msg)
    {
      duplicated := false;
      var i := 0;
      while i < listen.count
        invariant 0 <= i <= |listen.Contents()|
        invariant forall k :: 0 <= k < i ==>
          !(listen.Contents()[k].obj == obj && listen.Contents()[k].msg == msg && listen.Contents()[k].pid == pid)
        decreases listen.count - i
      {
        var to := listen.At(i);
        if to.value.obj == obj && to.value.msg == msg && to.value.pid == pid {
          duplicated := true;
          return;
        }
        i := i + 1;
      }
    }

    /** Append one triple unless it is there already or the table is full. */
    method AddOne(obj: nat, pid: nat, msg: nat) returns (added: bool)
      requires Valid()
      modifies listen`count, listen.buffer
      ensures Valid()
      ensures View() == old(View()).(listen := RegisteredOne(old(View().listen), obj, pid, msg))
      ensures added <==> |View().listen| == |old(View().listen)| + 1
    {
      hide Increasing, AsMap;
      added := false;
      var duplicated := FindListener(obj, pid, msg);
      if !duplicated {
        added := listen.PushBack(Mail(msg, obj, pid, -1));
      }
    }

    /** Register messages for an object; the answer is how many entries were added. */
    method AddListen(obj: nat, pid: nat, list: seq<nat>) returns (regi: nat)
      requires Valid()
      modifies listen`count, listen.buffer
      ensures Valid()
      ensures regi == |Registered(old(View().listen), obj, pid, list)| - |old(View().listen)|
      ensures Rearranged(View().listen, Registered(old(View().listen), obj, pid, list))
      ensures View() == old(View()).(listen := View().listen)
    {
      hide Increasing, AsMap, Registered, IsRegistered;
      ghost var was := View();
      regi := 0;
      RegisteredNone(was.listen, obj, pid, list);
      for n := 0 to |list|
        invariant Valid() && View() == was.(listen := Registered(was.listen, obj, pid, list[..n]))
        invariant regi == |listen.Contents()| - |was.listen|
      {
        RegisteredStep(was.listen, obj, pid, list, n);
        var added := AddOne(obj, pid, list[n]);
        if added {
          regi := regi + 1;
        }
      }
      ghost var unsorted := listen.Contents();
      listen.Sort(MsgBefore);
      SameBag(listen.Contents(), unsorted);
    }

    /**
     The constructor's critical section: register, and count the object with its
     process if it listens. A process that gets its first listener must have a
     cell in the process table.
     */
    method Attach(pid: nat, obj: nat, list: seq<nat>) returns (needWorker: bool, startWorker: bool)
      requires Valid()
      requires |Registered(View().listen, obj, pid, list)| > |View().listen| ==>
                 pid in View().procs || procs.count < procs.entries.Length
      modifies `instances, listen`count, listen.buffer, procs`count, procs.entries
      ensures Valid()
      ensures Rearranged(View().listen, Registered(old(View().listen), obj, pid, list))
      ensures View() == AttachedRegion(old(View()), pid, obj, list, View().listen)
      ensures needWorker <==> |Registered(old(View().listen), obj, pid, list)| > |old(View().listen)|
      ensures startWorker <==> needWorker && View().procs[pid] == 1
    {
      hide Registered, Rearranged, AsMap, Increasing;
      var regi := AddListen(obj, pid, list);
      needWorker, startWorker := regi > 0, false;
      if needWorker {
        var users := CountUp(procs, pid);
        startWorker := users == 1;
      }
      instances := instances + 1;
    }

    /** The destructor's first critical section; the entry of a process goes with its last user. */
    method Release(pid: nat, needWorker: bool) returns (stopWorker: bool)
      requires Valid()
      requires pid in View().procs ==> View().procs[pid] > 0
      modifies procs`count, procs.entries
      ensures Valid()
      ensures View() == if needWorker then ReleasedRegion(old(View()), pid) else old(View())
      ensures stopWorker <==> needWorker && pid in old(View().procs) && pid !in View().procs
    {
      stopWorker := false;
      if !needWorker {
        return;
      }
      stopWorker := CountDown(procs, pid);
    }

    /** The destructor's second critical section: purge the object's mails and listeners. */
    method Detach(obj: nat, needWorker: bool) returns (last: bool)
      requires Valid() && instances > 0
      modifies `instances, listen`count, listen.buffer, queue`count, queue.buffer
      ensures Valid()
      ensures needWorker ==>
                && Rearranged(View().queue, Filter(old(View().queue), Stays(MailOf(obj))))
                && Rearranged(View().listen, Filter(old(View().listen), Stays(MailOf(obj))))
      ensures View() == old(View()).(instances := old(instances) - 1,
                                     queue := if needWorker then View().queue else old(View().queue),
                                     listen := if needWorker then View().listen else old(View().listen))
      ensures last <==> View().instances == 0
    {
      if needWorker {
        var mails := TakeOut(queue, MailOf(obj));
        var listeners := TakeOut(listen, MailOf(obj));
      }
      instances := instances - 1;
      last := instances == 0;
    }
  }

  lemma FilterSplit<T(!new)>(s: seq<T>, i: nat, p: T -> bool)
    requires i <= |s|
    ensures Filter(s, p) == Filter(s[..i], p) + Filter(s[i..], p)
  {
    assert s == s[..i] + s[i..];
    FilterConcat(s[..i], s[i..], p);
  }

  /** An element that passes the filter comes right after those of the prefix before it. */
  lemma FilterStep<T(!new)>(s: seq<T>, i: nat, p: T -> bool)
    requires i < |s|
    ensures |Filter(s[..i + 1], p)| == |Filter(s[..i], p)| + if p(s[i]) then 1 else 0
    ensures |Filter(s[..i + 1], p)| <= |Filter(s, p)|
    ensures p(s[i]) ==> |Filter(s[..i], p)| < |Filter(s, p)| && Filter(s, p)[|Filter(s[..i], p)|] == s[i]
  {
    hide Filter;
    FilterSnoc(s, i, p);
    FilterSplit(s, i + 1, p);
  }

  lemma RegisteredNone(listen: seq<Mail>, obj: nat, pid: nat, list: seq<nat>)
    ensures Registered(listen, obj, pid, list[..0]) == listen
    ensures list[..|list|] == list
  {
  }

  lemma RegisteredStep(listen: seq<Mail>, obj: nat, pid: nat, list: seq<nat>, n: nat)
    requires n < |list|
    ensures Registered(listen, obj, pid, list[..n + 1])
            == RegisteredOne(Registered(listen, obj, pid, list[..n]), obj, pid, list[n])
  {
    assert list[..n + 1][..n] == list[..n];
  }

  /** The copy that is queued, if any, goes to the process of its listener. */
  lemma SentAddressee(r: Region, to: Mail, fromPid: nat, buf: seq<Byte>, allocMs: int, sentMs: int, n: nat)
    requires WellFormed(r) && |buf| <= PAYLOAD_MAX && n <= |r.queue|
    ensures var r' := Sent(r, to, fromPid, buf, allocMs, sentMs);
            && n <= |r'.queue|
            && Addressees(r'.queue[n..]) == Addressees(r.queue[n..]) + if r'.queue != r.queue then {to.pid} else {}
  {
    var r' := Sent(r, to, fromPid, buf, allocMs, sentMs);
    hide NextSlot;
    if r'.queue != r.queue {
      var m := r'.queue[|r.queue|];
      assert r'.queue == r.queue + [m] && m.pid == to.pid;
      hide Sent;
      assert r'.queue[n..] == r.queue[n..] + [m];
      AddresseesSnoc(r.queue[n..], m);
    }
  }

  lemma AddresseesSnoc(ms: seq<Mail>, m: Mail)
    ensures Addressees(ms + [m]) == Addressees(ms) + {m.pid}
  {
    forall pid
      ensures pid in Addressees(ms + [m]) <==> pid in Addressees(ms) + {m.pid}
    {
      if pid in Addressees(ms) {
        var i :| 0 <= i < |ms| && ms[i].pid == pid;
        assert (ms + [m])[i].pid == pid;
      }
      assert (ms + [m])[|ms|] == m;
    }
  }

  lemma FanOutNone(r: Region, tos: seq<Mail>, fromPid: nat, buf: seq<Byte>, clock: nat -> int)
    requires WellFormed(r) && |buf| <= PAYLOAD_MAX
    ensures FanOut(r, tos, 0, fromPid, buf, clock) == r
    ensures Addressees(r.queue[|r.queue|..]) == {}
  {
  }

  lemma FanOutStep(r: Region, tos: seq<Mail>, n: nat, fromPid: nat, buf: seq<Byte>, clock: nat -> int)
    requires WellFormed(r) && |buf| <= PAYLOAD_MAX && 0 < n <= |tos|
    ensures FanOut(r, tos, n, fromPid, buf, clock)
            == Sent(FanOut(r, tos, n - 1, fromPid, buf, clock), tos[n - 1], fromPid, buf, clock(2 * n - 2), clock(2 * n - 1))
  {
    hide Sent;
  }

  lemma CollectedStep(was: seq<Slot>, i: nat, now: int, after: int)
    requires i < |was|
    ensures (Collected(was[..i], now, after) + was[i..])[i] == was[i]
    ensures Collected(was[..i + 1], now, after) + was[i + 1..]
            == (Collected(was[..i], now, after) + was[i..])
               [i := if was[i].inUse && was[i].processed && now - was[i].sentMs >= after then Cleared(was[i]) else was[i]]
  {
  }

  lemma CollectedNone(was: seq<Slot>, now: int, after: int)
    ensures Collected(was[..0], now, after) + was[0..] == was
    ensures Collected(was[..|was|], now, after) + was[|was|..] == Collected(was, now, after)
  {
    assert was[..|was|] == was;
  }

  lemma CollectedWellFormed(r: Region, now: int, after: int)
    requires WellFormed(r)
    ensures WellFormed(r.(slots := Collected(r.slots, now, after)))
  {
  }

  lemma CountNone<T>(s: seq<T>, p: T -> bool)
    ensures Count(s[..0], p) == 0
  {
  }

  lemma CountStep<T>(s: seq<T>, i: nat, p: T -> bool)
    requires i < |s|
    ensures Count(s[..i + 1], p) == Count(s[..i], p) + if p(s[i]) then 1 else 0
  {
    assert s[..i + 1] == s[..i] + [s[i]];
    CountConcat(s[..i], [s[i]], p);
  }
}
