/**
 The shared mailbox as a transition system. A step is one critical section of
 the region's lock; the workers' callbacks run between two steps, with the lock
 released. Any number of objects, processes and workers interleave freely.
 */
module Mailboxes {
  import opened Options
  import opened Bags

  const LISTEN_MAX: nat := 128
  const QUEUE_MAX: nat := 384
  const PAYLOAD_MAX: nat := 512
  const PAYLOAD_SLOTS: nat := 384
  const REUSE_AFTER_MS: int := 5000

  type Byte = b: int | 0 <= b < 256

  /** A mail, and also a listener (whose idx is -1). Message 0 marks an empty cell, object 0 is null. */
  datatype Mail = Mail(msg: nat, obj: nat, pid: nat, idx: int)

  const EMPTY_MAIL := Mail(0, 0, 0, -1)

  datatype Slot = Slot(inUse: bool, processed: bool, size: nat, msg: nat, fromPid: nat, toPid: nat,
                       sentMs: int, processedMs: int, data: seq<Byte>)

  /** The region that all processes map; procs gives the reference count of each process. */
  datatype Region = Region(listen: seq<Mail>, queue: seq<Mail>, slots: seq<Slot>, hint: nat,
                           procs: map<nat, nat>, instances: nat)

  ghost predicate WellFormed(r: Region) {
    && |r.slots| == PAYLOAD_SLOTS
    && |r.listen| <= LISTEN_MAX
    && |r.queue| <= QUEUE_MAX
    && (forall i :: 0 <= i < |r.slots| ==> |r.slots[i].data| == PAYLOAD_MAX && r.slots[i].size <= PAYLOAD_MAX)
  }

  // ----- Payload slots

  /** An unused slot keeps the bytes it held. */
  function Cleared(s: Slot): Slot {
    Slot(false, false, 0, 0, 0, 0, 0, 0, s.data)
  }

  predicate Reclaimable(s: Slot, now: int) {
    !s.inUse || (s.processed && now - s.sentMs >= REUSE_AFTER_MS)
  }

  function Circular(start: nat, n: nat): nat {
    (start + n) % PAYLOAD_SLOTS
  }

  /** The first reclaimable slot in circular order, looking from offset n on; -1 if there is none. */
  function NextSlot(slots: seq<Slot>, start: nat, n: nat, now: int): int
    requires |slots| == PAYLOAD_SLOTS
    decreases PAYLOAD_SLOTS - n
  {
    if n >= PAYLOAD_SLOTS then -1
    else if Reclaimable(slots[Circular(start, n)], now) then Circular(start, n)
    else NextSlot(slots, start, n + 1, now)
  }

  /** Reserving slot idx: a slot that is recycled is cleared, and the search resumes behind it. */
  function Reserved(r: Region, idx: nat): Region
    requires idx < |r.slots|
  {
    r.(slots := r.slots[idx := if r.slots[idx].inUse then Cleared(r.slots[idx]) else r.slots[idx]], hint := idx + 1)
  }

  function Filled(s: Slot, to: Mail, fromPid: nat, buf: seq<Byte>, now: int): Slot
    requires |buf| <= |s.data|
  {
    Slot(true, false, |buf|, to.msg, fromPid, to.pid, now, 0, buf + s.data[|buf|..])
  }

  /** The bytes a receiver is shown. */
  function Bytes(s: Slot): seq<Byte> {
    if s.size <= |s.data| then s.data[..s.size] else s.data
  }

  // ----- Sending

  function Pushed(r: Region, m: Mail): Region {
    if |r.queue| < QUEUE_MAX then r.(queue := r.queue + [m]) else r
  }

  /**
   One copy sent to one listener. Without a payload the mail is queued if there
   is room. With one, a slot is reserved and filled first, and given back if the
   queue turns out to be full; without a slot nothing is sent.
   */
  function Sent(r: Region, to: Mail, fromPid: nat, buf: seq<Byte>, allocMs: int, sentMs: int): Region
    requires WellFormed(r) && |buf| <= PAYLOAD_MAX
  {
    if buf == [] then Pushed(r, to.(idx := -1))
    else
      var idx := NextSlot(r.slots, r.hint % PAYLOAD_SLOTS, 0, allocMs);
      if !(0 <= idx < PAYLOAD_SLOTS) then r
      else
        var r1 := Reserved(r, idx);
        var slot := Filled(r1.slots[idx], to, fromPid, buf, sentMs);
        if |r.queue| < QUEUE_MAX
        then r1.(slots := r1.slots[idx := slot], queue := r.queue + [to.(idx := idx)])
        else r1.(slots := r1.slots[idx := Cleared(slot)])
  }

  /** Sending keeps the shape of the region and only appends to the queue. */
  lemma SentWellFormed(r: Region, to: Mail, fromPid: nat, buf: seq<Byte>, allocMs: int, sentMs: int)
    requires WellFormed(r) && |buf| <= PAYLOAD_MAX
    ensures WellFormed(Sent(r, to, fromPid, buf, allocMs, sentMs))
    ensures r.queue <= Sent(r, to, fromPid, buf, allocMs, sentMs).queue
  {
  }

  /**
   The copies to the first n of tos. Each recipient costs up to two readings of
   the clock, one while looking for a slot and one for the time stamp.
   */
  function FanOut(r: Region, tos: seq<Mail>, n: nat, fromPid: nat, buf: seq<Byte>, clock: nat -> int): (r': Region)
    requires WellFormed(r) && |buf| <= PAYLOAD_MAX && n <= |tos|
    ensures WellFormed(r') && r.queue <= r'.queue
    ensures r'.listen == r.listen && r'.procs == r.procs && r'.instances == r.instances
  {
    if n == 0 then r
    else
      var before := FanOut(r, tos, n - 1, fromPid, buf, clock);
      SentWellFormed(before, tos[n - 1], fromPid, buf, clock(2 * n - 2), clock(2 * n - 1));
      Sent(before, tos[n - 1], fromPid, buf, clock(2 * n - 2), clock(2 * n - 1))
  }

  /** A sender does not write to itself; senders are told apart by address alone. */
  function IsRecipient(msg: nat, from: nat): Mail -> bool {
    (m: Mail) => m.msg == msg && m.obj != from
  }

  function Recipients(listen: seq<Mail>, msg: nat, from: nat): seq<Mail> {
    Filter(listen, IsRecipient(msg, from))
  }

  function Notified(r: Region, from: nat, fromPid: nat, msg: nat, buf: seq<Byte>, clock: nat -> int): Region
    requires WellFormed(r) && |buf| <= PAYLOAD_MAX
  {
    var tos := Recipients(r.listen, msg, from);
    FanOut(r, tos, |tos|, fromPid, buf, clock)
  }

  /** The processes to which some mails go. */
  function Addressees(ms: seq<Mail>): set<nat> {
    set i | 0 <= i < |ms| :: ms[i].pid
  }

  // ----- Listening

  predicate IsRegistered(listen: seq<Mail>, obj: nat, pid: nat, msg: nat) {
    exists i :: 0 <= i < |listen| && listen[i].obj == obj && listen[i].msg == msg && listen[i].pid == pid
  }

  function RegisteredOne(listen: seq<Mail>, obj: nat, pid: nat, msg: nat): seq<Mail> {
    if IsRegistered(listen, obj, pid, msg) || |listen| >= LISTEN_MAX then listen
    else listen + [Mail(msg, obj, pid, -1)]
  }

  /** The table after the messages of list are added, before it is sorted again. */
  function Registered(listen: seq<Mail>, obj: nat, pid: nat, list: seq<nat>): (r: seq<Mail>)
    ensures listen <= r
    ensures |listen| <= LISTEN_MAX ==> |r| <= LISTEN_MAX
    decreases |list|
  {
    if list == [] then listen
    else RegisteredOne(Registered(listen, obj, pid, list[..|list| - 1]), obj, pid, list[|list| - 1])
  }

  // ----- Marking, sorting and trimming

  ghost predicate SortedByMsg(s: seq<Mail>) {
    forall i, j :: 0 <= i < j < |s| ==> s[i].msg <= s[j].msg
  }

  /** s holds the mails of t in message order; equal messages may come in any order. */
  ghost predicate Rearranged(s: seq<Mail>, t: seq<Mail>) {
    SortedByMsg(s) && multiset(s) == multiset(t)
  }

  function OwnMail(pid: nat): Mail -> bool {
    (m: Mail) => m.msg != 0 && m.obj != 0 && m.pid == pid
  }

  function MailOf(obj: nat): Mail -> bool {
    (m: Mail) => m.obj == obj
  }

  /** What is left after the taken mails are marked empty and empty cells are trimmed. */
  function Stays(taken: Mail -> bool): Mail -> bool {
    (m: Mail) => !taken(m) && m.msg != 0
  }

  function Trimmed(taken: Mail -> bool): Mail -> bool {
    (m: Mail) => !taken(m) && m.msg == 0
  }

  function Goes(taken: Mail -> bool): Mail -> bool {
    (m: Mail) => taken(m) || m.msg == 0
  }

  // ----- Collecting

  function Collected(slots: seq<Slot>, now: int, after: int): (c: seq<Slot>)
    ensures |c| == |slots|
  {
    seq(|slots|, i requires 0 <= i < |slots| =>
      var s := slots[i];
      if s.inUse && s.processed && now - s.sentMs >= after then Cleared(s) else s)
  }

  // ----- The world: region, workers, objects and history

  /** A letter is a mail together with the bytes it carries. */
  datatype Letter = Letter(msg: nat, obj: nat, pid: nat, data: Option<seq<Byte>>)

  /** A process's worker thread: the mails it has drained, and the bytes its running callback was shown. */
  datatype Worker = Worker(pid: nat, batch: seq<Mail>, reading: Option<seq<Byte>>)

  datatype Life = Life(needWorker: bool, released: bool)

  /** Objects are known by process and address. The last four fields are history. */
  datatype World = World(region: Region, workers: seq<Worker>, objects: map<(nat, nat), Life>,
                         accepted: multiset<Letter>, delivered: multiset<Letter>, purged: multiset<Letter>,
                         leaked: multiset<int>)

  function LetterOf(slots: seq<Slot>, m: Mail): Letter {
    Letter(m.msg, m.obj, m.pid, if 0 <= m.idx < |slots| then Some(Bytes(slots[m.idx])) else None)
  }

  function LetterBag(slots: seq<Slot>): Mail -> multiset<Letter> {
    (m: Mail) => multiset{LetterOf(slots, m)}
  }

  function SentBag(buf: seq<Byte>): Mail -> multiset<Letter> {
    (m: Mail) => multiset{Letter(m.msg, m.obj, m.pid, if buf == [] then None else Some(buf))}
  }

  function SlotBag(): Mail -> multiset<int> {
    (m: Mail) => if m.idx >= 0 then multiset{m.idx} else multiset{}
  }

  function WorkerLetters(slots: seq<Slot>): Worker -> multiset<Letter> {
    (k: Worker) => Gather(k.batch, LetterBag(slots))
  }

  function WorkerSlots(): Worker -> multiset<int> {
    (k: Worker) => Gather(k.batch, SlotBag())
  }

  datatype Event =
    | Attach(pid: nat, obj: nat, list: seq<nat>, listen: seq<Mail>)
    | AddListen(pid: nat, obj: nat, target: nat, list: seq<nat>, listen: seq<Mail>)
    | Notify(pid: nat, obj: nat, msg: nat, buf: seq<Byte>, clock: nat -> int)
    | Drain(k: nat, queue: seq<Mail>)
    | Begin(k: nat)
    | End(k: nat, now: int)
    | Collect(now: int, after: int)
    | Release(pid: nat, obj: nat)
    | Detach(pid: nat, obj: nat, queue: seq<Mail>, listen: seq<Mail>)

  ghost predicate Enabled(w: World, e: Event) {
    match e
    case Attach(pid, obj, list, listen) =>
      && obj != 0
      && (pid, obj) !in w.objects
      && Rearranged(listen, Registered(w.region.listen, obj, pid, list))
    case AddListen(pid, obj, target, list, listen) =>
      && target != 0
      && (pid, obj) in w.objects
      && w.objects[(pid, obj)].needWorker
      && Rearranged(listen, Registered(w.region.listen, target, pid, list))
    case Notify(_, obj, _, buf, _) =>
      obj != 0 && |buf| <= PAYLOAD_MAX
    case Drain(k, queue) =>
      && k < |w.workers|
      && w.workers[k].batch == []
      && Rearranged(queue, Filter(w.region.queue, Stays(OwnMail(w.workers[k].pid))))
    case Begin(k) =>
      k < |w.workers| && w.workers[k].batch != [] && w.workers[k].reading.None?
    case End(k, _) =>
      k < |w.workers| && w.workers[k].batch != [] && w.workers[k].reading.Some?
    case Collect(_, _) =>
      true
    case Release(pid, obj) =>
      (pid, obj) in w.objects && !w.objects[(pid, obj)].released
    case Detach(pid, obj, queue, listen) =>
      && (pid, obj) in w.objects
      && w.objects[(pid, obj)].released
      && (w.objects[(pid, obj)].needWorker ==>
            && Rearranged(queue, Filter(w.region.queue, Stays(MailOf(obj))))
            && Rearranged(listen, Filter(w.region.listen, Stays(MailOf(obj)))))
  }

  /** Mails dropped from the queue take the slots they own with them. */
  function Purged(w: World, gone: seq<Mail>): World {
    w.(purged := w.purged + Gather(gone, LetterBag(w.region.slots)),
       leaked := w.leaked + Gather(gone, SlotBag()))
  }

  function AttachedRegion(r: Region, pid: nat, obj: nat, list: seq<nat>, listen: seq<Mail>): Region {
    var added := |Registered(r.listen, obj, pid, list)| - |r.listen|;
    var users := if pid in r.procs then r.procs[pid] else 0;
    r.(listen := listen,
       procs := if added > 0 then r.procs[pid := users + 1] else r.procs,
       instances := r.instances + 1)
  }

  /** The first listening object of a process starts its worker. */
  function Attached(w: World, pid: nat, obj: nat, list: seq<nat>, listen: seq<Mail>): World {
    var r := AttachedRegion(w.region, pid, obj, list, listen);
    var added := |Registered(w.region.listen, obj, pid, list)| - |w.region.listen|;
    w.(region := r,
       workers := if added > 0 && r.procs[pid] == 1 then w.workers + [Worker(pid, [], None)] else w.workers,
       objects := w.objects[(pid, obj) := Life(added > 0, false)])
  }

  function NotifiedWorld(w: World, pid: nat, obj: nat, msg: nat, buf: seq<Byte>, clock: nat -> int): World
    requires WellFormed(w.region) && |buf| <= PAYLOAD_MAX
  {
    var r := Notified(w.region, obj, pid, msg, buf, clock);
    w.(region := r, accepted := w.accepted + Gather(r.queue[|w.region.queue|..], SentBag(buf)))
  }

  function Drained(w: World, k: nat, queue: seq<Mail>): World
    requires k < |w.workers|
  {
    var own := OwnMail(w.workers[k].pid);
    var w1 := Purged(w, Filter(w.region.queue, Trimmed(own)));
    w1.(region := w.region.(queue := queue),
        workers := w.workers[k := w.workers[k].(batch := Filter(w.region.queue, own))])
  }

  predicate SlotMatches(s: Slot, m: Mail, pid: nat) {
    s.inUse && s.msg == m.msg && s.toPid == pid
  }

  /** The head of the batch is handed over: with its slot's bytes, or bare if the slot does not fit. */
  function Begun(w: World, k: nat): World
    requires k < |w.workers| && w.workers[k].batch != []
  {
    var wk := w.workers[k];
    var m := wk.batch[0];
    var done := wk.(batch := wk.batch[1..]);
    if m.obj == 0 then w.(workers := w.workers[k := done])
    else if 0 <= m.idx < |w.region.slots| && SlotMatches(w.region.slots[m.idx], m, wk.pid)
    then w.(workers := w.workers[k := wk.(reading := Some(Bytes(w.region.slots[m.idx])))])
    else w.(workers := w.workers[k := done],
            delivered := w.delivered + multiset{Letter(m.msg, m.obj, m.pid, None)})
  }

  function MarkedProcessed(slots: seq<Slot>, idx: int, now: int): seq<Slot> {
    if 0 <= idx < |slots| && slots[idx].inUse
    then slots[idx := slots[idx].(processed := true, processedMs := now)]
    else slots
  }

  /** The callback on the head of the batch returns and its slot is marked processed. */
  function Ended(w: World, k: nat, now: int): World
    requires k < |w.workers| && w.workers[k].batch != []
  {
    var wk := w.workers[k];
    var m := wk.batch[0];
    w.(region := w.region.(slots := MarkedProcessed(w.region.slots, m.idx, now)),
       workers := w.workers[k := Worker(wk.pid, wk.batch[1..], None)],
       delivered := w.delivered + multiset{Letter(m.msg, m.obj, m.pid, wk.reading)})
  }

  function ReleasedRegion(r: Region, pid: nat): Region {
    if pid !in r.procs then r
    else if r.procs[pid] == 1 then r.(procs := r.procs - {pid})
    else r.(procs := r.procs[pid := if r.procs[pid] > 0 then r.procs[pid] - 1 else 0])
  }

  function Released(w: World, pid: nat, obj: nat): World
    requires (pid, obj) in w.objects
  {
    var life := w.objects[(pid, obj)];
    w.(region := if life.needWorker then ReleasedRegion(w.region, pid) else w.region,
       objects := w.objects[(pid, obj) := life.(released := true)])
  }

  function Detached(w: World, pid: nat, obj: nat, queue: seq<Mail>, listen: seq<Mail>): World
    requires (pid, obj) in w.objects
  {
    var r := w.region.(instances := if w.region.instances > 0 then w.region.instances - 1 else 0);
    if w.objects[(pid, obj)].needWorker
    then
      var w1 := Purged(w, Filter(w.region.queue, Goes(MailOf(obj))));
      w1.(region := r.(queue := queue, listen := listen), objects := w.objects - {(pid, obj)})
    else w.(region := r, objects := w.objects - {(pid, obj)})
  }

  ghost function Step(w: World, e: Event): World
    requires WellFormed(w.region) && Enabled(w, e)
  {
    match e
    case Attach(pid, obj, list, listen) => Attached(w, pid, obj, list, listen)
    case AddListen(_, _, _, _, listen) => w.(region := w.region.(listen := listen))
    case Notify(pid, obj, msg, buf, clock) => NotifiedWorld(w, pid, obj, msg, buf, clock)
    case Drain(k, queue) => Drained(w, k, queue)
    case Begin(k) => Begun(w, k)
    case End(k, now) => Ended(w, k, now)
    case Collect(now, after) => w.(region := w.region.(slots := Collected(w.region.slots, now, after)))
    case Release(pid, obj) => Released(w, pid, obj)
    case Detach(pid, obj, queue, listen) => Detached(w, pid, obj, queue, listen)
  }

  ghost predicate Initial(w: World) {
    && w.region.listen == [] && w.region.queue == [] && w.region.hint == 0
    && w.region.procs == map[] && w.region.instances == 0
    && WellFormed(w.region)
    && (forall i :: 0 <= i < |w.region.slots| ==> !w.region.slots[i].inUse && !w.region.slots[i].processed)
    && w.workers == [] && w.objects == map[]
    && w.accepted == multiset{} && w.delivered == multiset{} && w.purged == multiset{} && w.leaked == multiset{}
  }

  /** One step of the system. Every step keeps the region well formed, so that conjunct never stops a run. */
  ghost predicate Next(w: World, e: Event, w': World) {
    WellFormed(w.region) && Enabled(w, e) && w' == Step(w, e)
  }

  /** No step leads to a region that could not be mapped. */
  lemma StepWellFormed(w: World, e: Event, w': World)
    requires Next(w, e, w')
    ensures WellFormed(w'.region)
  {
    hide Gather, Filter, Registered, FanOut;
    match e
    case Attach(pid, obj, list, listen) => SameBag(listen, Registered(w.region.listen, obj, pid, list));
    case AddListen(pid, obj, target, list, listen) => SameBag(listen, Registered(w.region.listen, target, pid, list));
    case Drain(k, queue) =>
      SameBag(queue, Filter(w.region.queue, Stays(OwnMail(w.workers[k].pid))));
    case Detach(pid, obj, queue, listen) =>
      if w.objects[(pid, obj)].needWorker {
        SameBag(queue, Filter(w.region.queue, Stays(MailOf(obj))));
        SameBag(listen, Filter(w.region.listen, Stays(MailOf(obj))));
      }
    case _ =>
  }

  ghost predicate IsRun(ws: seq<World>, es: seq<Event>) {
    && |ws| == |es| + 1
    && forall i :: 0 <= i < |es| ==> Next(ws[i], es[i], ws[i + 1])
  }
}
