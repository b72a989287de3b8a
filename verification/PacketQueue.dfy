/** locked_queue.c, packet_queue.c and semaphore.c: any number of producers and
    consumers share one queue. Every access to shared memory is one step, and the
    steps of different threads interleave freely. */
module PacketQueue {
  import opened Wrappers

  type Tid = nat
  type Id = nat

  datatype Packet = Packet(kind: int, bytes: seq<int>)

  /** Where a thread stands inside packet_queue_push or packet_queue_pop. The item of
      the `k`-th push and its copy of the bytes are both named `k`. */
  datatype Pc =
    | Idle
    | Built(item: Id)             // push: item allocated, bytes copied
    | PushLocked(item: Id)        // push: lock held
    | Appended                    // push: list_append done, lock held
    | ToPost                      // push: lock released, avs_sem_post not done
    | Waited                      // pop: avs_sem_wait returned
    | PopLocked                   // pop: lock held
    | Peeked(head: Option<Id>)    // pop: list_head read, lock held
    | Unlinked(head: Option<Id>)  // pop: list_unlink done, lock held
    | Popped(item: Id)            // pop: lock released
    | Referenced(item: Id)        // pop: mem_ref of the bytes done
  {
    /** The item this thread alone can reach, if any. */
    function Holds(): Option<Id> {
      match this
      case Built(i) => Some(i)
      case PushLocked(i) => Some(i)
      case Unlinked(h) => h
      case Popped(i) => Some(i)
      case Referenced(i) => Some(i)
      case _ => None
    }

    /** The item this thread is about to append, if any. */
    function Pending(): Option<Id> {
      if Built? || PushLocked? then Some(item) else None
    }

    predicate Locks() {
      PushLocked? || Appended? || PopLocked? || Peeked? || Unlinked?
    }

    /** Between append and post, or between wait and unlink. */
    predicate Owes() {
      Appended? || ToPost? || Waited? || PopLocked? || Peeked?
    }
  }

  datatype Item = Item(refs: nat, kind: int)
  datatype Buffer = Buffer(refs: nat, bytes: seq<int>)

  datatype State = State(
    blocking: bool,
    list: seq<Id>,
    lock: Option<Tid>,
    sem: nat,
    pcs: map<Tid, Pc>,
    items: map<Id, Item>,
    buffers: map<Id, Buffer>,
    // history
    pushed: seq<Packet>,           // packet of every item ever built
    appended: seq<Id>,
    unlinked: seq<Id>,
    owner: map<Id, Tid>,           // who received which buffer
    received: map<Id, Packet>,     // and what packet_queue_pop returned for it
    handed: seq<(Tid, Id)>,        // every buffer handed to a caller, in order
    noData: nat)                   // how often pop returned ENODATA
  {
    function Pc(t: Tid): Pc {
      if t in pcs then pcs[t] else Idle
    }
  }

  function Init(blocking: bool): State {
    State(blocking, [], None, 0, map[], map[], map[], [], [], [], map[], map[], [], 0)
  }

  // ---- Steps --------------------------------------------------------------------

  datatype Step =
    | Build(p: Packet)
    | Lock
    | Append
    | Unlock
    | Post
    | Wait
    | Peek
    | Unlink
    | RefBytes
    | DerefItem

  function Remove(s: seq<Id>, x: Id): seq<Id> {
    if s == [] then [] else if s[0] == x then s[1..] else [s[0]] + Remove(s[1..], x)
  }

  function Goto(s: State, t: Tid, pc: Pc): State {
    s.(pcs := s.pcs[t := pc])
  }

  /** mem_deref: the last reference frees the buffer. */
  function Deref(buffers: map<Id, Buffer>, i: Id): map<Id, Buffer>
    requires i in buffers
  {
    if buffers[i].refs <= 1 then buffers - {i} else buffers[i := buffers[i].(refs := buffers[i].refs - 1)]
  }

  /** packet_queue_push up to locked_queue_push; empty packets are refused. */
  function DoBuild(s: State, t: Tid, p: Packet): State {
    var i := |s.pushed|;
    Goto(s, t, Built(i)).(
      items := s.items[i := Item(1, p.kind)],
      buffers := s.buffers[i := Buffer(1, p.bytes)],
      pushed := s.pushed + [p])
  }

  function DoLock(s: State, t: Tid): State {
    Goto(s, t, if s.Pc(t).Built? then PushLocked(s.Pc(t).item) else PopLocked).(lock := Some(t))
  }

  function DoAppend(s: State, t: Tid): State
    requires s.Pc(t).PushLocked?
  {
    var i := s.Pc(t).item;
    Goto(s, t, Appended).(list := s.list + [i], appended := s.appended + [i])
  }

  function DoUnlock(s: State, t: Tid): State
    requires s.Pc(t).Appended? || s.Pc(t).Unlinked?
  {
    var s' := s.(lock := None);
    if s.Pc(t).Appended? then Goto(s', t, if s.blocking then ToPost else Idle)
    else if s.Pc(t).head == None then Goto(s', t, Idle).(noData := s.noData + 1)
    else Goto(s', t, Popped(s.Pc(t).head.value))
  }

  function DoPost(s: State, t: Tid): State {
    Goto(s, t, Idle).(sem := s.sem + 1)
  }

  function DoWait(s: State, t: Tid): State
    requires s.blocking ==> s.sem > 0
  {
    Goto(s, t, Waited).(sem := if s.blocking then s.sem - 1 else s.sem)
  }

  function Head(list: seq<Id>): Option<Id> {
    if list == [] then None else Some(list[0])
  }

  function DoPeek(s: State, t: Tid): State {
    Goto(s, t, Peeked(Head(s.list)))
  }

  function DoUnlink(s: State, t: Tid): State
    requires s.Pc(t).Peeked?
  {
    var h := s.Pc(t).head;
    var s' := Goto(s, t, Unlinked(h));
    if h == None then s' else s'.(list := Remove(s.list, h.value), unlinked := s.unlinked + [h.value])
  }

  function DoRefBytes(s: State, t: Tid): State
    requires s.Pc(t).Popped? && s.Pc(t).item in s.buffers
  {
    var i := s.Pc(t).item;
    Goto(s, t, Referenced(i)).(buffers := s.buffers[i := s.buffers[i].(refs := s.buffers[i].refs + 1)])
  }

  /** mem_deref of the item; its destructor drops the item's reference to the bytes. */
  function DoDerefItem(s: State, t: Tid): State
    requires s.Pc(t).Referenced? && s.Pc(t).item in s.items && s.Pc(t).item in s.buffers
  {
    var i := s.Pc(t).item;
    var s' := Goto(s, t, Idle).(
      owner := s.owner[i := t],
      received := s.received[i := Packet(s.items[i].kind, s.buffers[i].bytes)],
      handed := s.handed + [(t, i)]);
    if s.items[i].refs <= 1 then s'.(items := s.items - {i}, buffers := Deref(s.buffers, i))
    else s'.(items := s.items[i := s.items[i].(refs := s.items[i].refs - 1)])
  }

  predicate Enabled(s: State, t: Tid, a: Step) {
    match a
    case Build(p) => s.Pc(t).Idle? && p.bytes != []
    case Lock => (s.Pc(t).Built? || s.Pc(t).Waited?) && s.lock == None
    case Append => s.Pc(t).PushLocked?
    case Unlock => s.Pc(t).Appended? || s.Pc(t).Unlinked?
    case Post => s.Pc(t).ToPost?
    case Wait => s.Pc(t).Idle? && (s.blocking ==> s.sem > 0)
    case Peek => s.Pc(t).PopLocked?
    case Unlink => s.Pc(t).Peeked?
    case RefBytes => s.Pc(t).Popped? && s.Pc(t).item in s.buffers
    case DerefItem => s.Pc(t).Referenced? && s.Pc(t).item in s.items && s.Pc(t).item in s.buffers
  }

  function Next(s: State, t: Tid, a: Step): State
    requires Enabled(s, t, a)
  {
    match a
    case Build(p) => DoBuild(s, t, p)
    case Lock => DoLock(s, t)
    case Append => DoAppend(s, t)
    case Unlock => DoUnlock(s, t)
    case Post => DoPost(s, t)
    case Wait => DoWait(s, t)
    case Peek => DoPeek(s, t)
    case Unlink => DoUnlink(s, t)
    case RefBytes => DoRefBytes(s, t)
    case DerefItem => DoDerefItem(s, t)
  }

  /** A run: which thread took which step. */
  predicate IsRun(s: State, run: seq<(Tid, Step)>)
    decreases |run|
  {
    run == [] || (Enabled(s, run[0].0, run[0].1) && IsRun(Next(s, run[0].0, run[0].1), run[1..]))
  }

  function After(s: State, run: seq<(Tid, Step)>): State
    requires IsRun(s, run)
    decreases |run|
  {
    if run == [] then s else After(Next(s, run[0].0, run[0].1), run[1..])
  }

  // ---- Invariants -----------------------------------------------------------------

  function Owing(pcs: map<Tid, Pc>): set<Tid> {
    set t | t in pcs && pcs[t].Owes()
  }

  predicate LockOk(s: State) {
    && (forall t :: t in s.pcs && s.pcs[t].Locks() ==> s.lock == Some(t))
    && (s.lock.Some? ==> s.Pc(s.lock.value).Locks())
  }

  /** While a consumer looks at the head, the head does not change. */
  predicate PeekOk(s: State) {
    forall t :: t in s.pcs && s.pcs[t].Peeked? ==> s.pcs[t].head == Head(s.list)
  }

  /** List length = semaphore value + producers that still owe a post + consumers
      that have consumed a permit but not yet an item. */
  predicate CountOk(s: State) {
    s.blocking ==> |s.list| == s.sem + |Owing(s.pcs)|
  }

  predicate FifoOk(s: State) {
    s.unlinked + s.list == s.appended
  }

  /** A blocking pop always finds an item. */
  predicate DataOk(s: State) {
    s.blocking ==> s.noData == 0 && forall t :: t in s.pcs && s.pcs[t].Unlinked? ==> s.pcs[t].head.Some?
  }

  predicate Inv(s: State) {
    LockOk(s) && PeekOk(s) && CountOk(s) && FifoOk(s) && DataOk(s)
  }

  lemma OwingStep(pcs: map<Tid, Pc>, t: Tid, pc: Pc)
    ensures var was := t in pcs && pcs[t].Owes();
            |Owing(pcs[t := pc])| == |Owing(pcs)| + (if pc.Owes() then 1 else 0) - (if was then 1 else 0)
  {
    var a, b := Owing(pcs), Owing(pcs[t := pc]);
    if pc.Owes() {
      assert b == a + {t};
    } else {
      assert b == a - {t};
    }
  }

  lemma InvInit(blocking: bool)
    ensures Inv(Init(blocking))
  {
    assert Owing(map[]) == {};
  }

  /** In a blocking queue a consumer inside the lock finds the list non-empty. */
  lemma OwingFindsItem(s: State, t: Tid)
    requires CountOk(s) && s.blocking && s.Pc(t).Owes()
    ensures s.list != []
  {
    assert t in Owing(s.pcs);
  }

  /** A thread that changes neither the list nor the lock and stays in its class of
      steps keeps everything. */
  lemma QuietKeeps(s: State, s': State, t: Tid, pc: Pc)
    requires Inv(s) && !pc.Locks() && !pc.Peeked? && !s.Pc(t).Locks() && pc.Owes() == s.Pc(t).Owes()
    requires s'.pcs == s.pcs[t := pc] && s'.list == s.list && s'.lock == s.lock && s'.sem == s.sem
    requires s'.blocking == s.blocking && s'.noData == s.noData
    requires s'.appended == s.appended && s'.unlinked == s.unlinked
    ensures Inv(s')
  {
    OwingStep(s.pcs, t, pc);
  }

  lemma LockKeeps(s: State, t: Tid)
    requires Inv(s) && Enabled(s, t, Lock)
    ensures Inv(DoLock(s, t))
  {
    hide Owing;
    OwingStep(s.pcs, t, DoLock(s, t).pcs[t]);
  }

  lemma AppendKeeps(s: State, t: Tid)
    requires Inv(s) && Enabled(s, t, Append)
    ensures Inv(DoAppend(s, t))
  {
    hide Owing;
    OwingStep(s.pcs, t, Appended);
  }

  lemma ReleaseKeeps(s: State, s': State, t: Tid, pc: Pc)
    requires Inv(s) && s.Pc(t).Locks() && !pc.Locks() && (s.blocking ==> pc.Owes() == s.Pc(t).Owes())
    requires s'.pcs == s.pcs[t := pc] && s'.list == s.list && s'.lock == None && s'.sem == s.sem
    requires s'.blocking == s.blocking && (s.blocking ==> s'.noData == s.noData)
    requires s'.appended == s.appended && s'.unlinked == s.unlinked
    ensures Inv(s')
  {
    OwingStep(s.pcs, t, pc);
    forall u | u in s'.pcs && u != t
      ensures !s'.pcs[u].Locks()
    {
      assert s.lock == Some(t);
    }
  }

  lemma UnlockKeeps(s: State, t: Tid)
    requires Inv(s) && Enabled(s, t, Unlock)
    ensures Inv(DoUnlock(s, t))
  {
    var s' := DoUnlock(s, t);
    if s.Pc(t).Appended? {
      ReleaseKeeps(s, s', t, if s.blocking then ToPost else Idle);
    } else if s.Pc(t).head == None {
      ReleaseKeeps(s, s', t, Idle);
    } else {
      ReleaseKeeps(s, s', t, Popped(s.Pc(t).head.value));
    }
  }

  lemma PostKeeps(s: State, t: Tid)
    requires Inv(s) && Enabled(s, t, Post)
    ensures Inv(DoPost(s, t))
  {
    hide Owing;
    OwingStep(s.pcs, t, Idle);
  }

  lemma WaitKeeps(s: State, t: Tid)
    requires Inv(s) && Enabled(s, t, Wait)
    ensures Inv(DoWait(s, t))
  {
    hide Owing;
    OwingStep(s.pcs, t, Waited);
  }

  lemma PeekKeeps(s: State, t: Tid)
    requires Inv(s) && Enabled(s, t, Peek)
    ensures Inv(DoPeek(s, t))
  {
    hide Owing;
    OwingStep(s.pcs, t, DoPeek(s, t).pcs[t]);
  }

  lemma UnlinkKeeps(s: State, t: Tid)
    requires Inv(s) && Enabled(s, t, Unlink)
    ensures Inv(DoUnlink(s, t))
  {
    var h := s.Pc(t).head;
    assert h == Head(s.list);
    if s.blocking {
      OwingFindsItem(s, t);
    }
    if h.Some? {
      assert Remove(s.list, h.value) == s.list[1..];
      UnlinkHead(s, DoUnlink(s, t), t, h.value);
    } else {
      UnlinkNone(s, DoUnlink(s, t), t);
    }
  }

  lemma UnlinkHead(s: State, s': State, t: Tid, i: Id)
    requires Inv(s) && s.Pc(t).Peeked? && s.list != [] && i == s.list[0]
    requires s' == s.(pcs := s.pcs[t := Unlinked(Some(i))], list := s.list[1..], unlinked := s.unlinked + [i])
    ensures Inv(s')
  {
    hide Owing;
    OwingStep(s.pcs, t, Unlinked(Some(i)));
    assert s.list == [i] + s.list[1..];
    assert FifoOk(s') by { hide LockOk, PeekOk, CountOk, DataOk; }
  }

  lemma UnlinkNone(s: State, s': State, t: Tid)
    requires Inv(s) && s.Pc(t).Peeked? && s.list == [] && !s.blocking
    requires s' == s.(pcs := s.pcs[t := Unlinked(None)])
    ensures Inv(s')
  {
    hide Owing;
  }

  /** Every step of every thread keeps the invariant. */
  lemma InvStep(s: State, t: Tid, a: Step)
    requires Inv(s) && Enabled(s, t, a)
    ensures Inv(Next(s, t, a))
  {
    hide Inv;
    match a
    case Build(p) => QuietKeeps(s, DoBuild(s, t, p), t, Built(|s.pushed|));
    case Lock => LockKeeps(s, t);
    case Append => AppendKeeps(s, t);
    case Unlock => UnlockKeeps(s, t);
    case Post => PostKeeps(s, t);
    case Wait => WaitKeeps(s, t);
    case Peek => PeekKeeps(s, t);
    case Unlink => UnlinkKeeps(s, t);
    case RefBytes => QuietKeeps(s, DoRefBytes(s, t), t, Referenced(s.Pc(t).item));
    case DerefItem => QuietKeeps(s, DoDerefItem(s, t), t, Idle);
  }

  // ---- Memory ------------------------------------------------------------------------

  /** An item that is on its way: one reference to it, its bytes as pushed. */
  predicate Live(s: State, i: Id, refs: nat) {
    && i < |s.pushed| && i !in s.owner
    && i in s.items && s.items[i] == Item(1, s.pushed[i].kind)
    && i in s.buffers && s.buffers[i] == Buffer(refs, s.pushed[i].bytes)
  }

  predicate HeldOk(s: State) {
    forall t :: t in s.pcs && s.pcs[t].Holds().Some? ==>
      var i := s.pcs[t].Holds().value;
      i !in s.list && Live(s, i, if s.pcs[t].Referenced? then 2 else 1)
  }

  predicate ApartOk(s: State) {
    forall t, u :: t in s.pcs && u in s.pcs && t != u && s.pcs[t].Holds().Some? ==>
      s.pcs[t].Holds() != s.pcs[u].Holds()
  }

  predicate ListOk(s: State) {
    && (forall k :: 0 <= k < |s.list| ==> Live(s, s.list[k], 1))
    && (forall j, k :: 0 <= j < k < |s.list| ==> s.list[j] != s.list[k])
  }

  /** A received buffer: exactly one reference left, nothing else points to it, and
      pop returned exactly what was pushed. */
  predicate OwnedOk(s: State) {
    forall i :: i in s.owner ==>
      && i < |s.pushed| && i !in s.items && i !in s.list
      && i in s.buffers && s.buffers[i] == Buffer(1, s.pushed[i].bytes)
      && i in s.received && s.received[i] == s.pushed[i]
  }

  predicate MemOk(s: State) {
    && HeldOk(s) && ApartOk(s) && ListOk(s) && OwnedOk(s)
  }

  lemma MemQuiet(s: State, s': State, t: Tid, pc: Pc)
    requires MemOk(s) && pc.Holds() == s.Pc(t).Holds() && !pc.Referenced? && !s.Pc(t).Referenced?
    requires s'.pcs == s.pcs[t := pc] && s'.list == s.list && s'.items == s.items && s'.buffers == s.buffers
    requires s'.pushed == s.pushed && s'.owner == s.owner && s'.received == s.received
    ensures MemOk(s')
  {
  }

  lemma MemBuild(s: State, t: Tid, p: Packet)
    requires MemOk(s) && Enabled(s, t, Build(p))
    ensures MemOk(DoBuild(s, t, p))
  {
    hide DoBuild, HeldOk, ApartOk, ListOk, OwnedOk;
    BuildHeld(s, t, p);
    BuildRest(s, t, p);
  }

  lemma BuildHeld(s: State, t: Tid, p: Packet)
    requires MemOk(s) && s.Pc(t).Idle?
    ensures HeldOk(DoBuild(s, t, p)) && ApartOk(DoBuild(s, t, p))
  {
    var s', n := DoBuild(s, t, p), |s.pushed|;
    BuiltFresh(s);
    hide ListOk, OwnedOk;
    assert ApartOk(s') by { BuildApart(s, s', t); }
    forall u | u in s'.pcs && s'.pcs[u].Holds().Some?
      ensures var i := s'.pcs[u].Holds().value;
              i !in s'.list && Live(s', i, if s'.pcs[u].Referenced? then 2 else 1)
    {
      if u != t { assert u in s.pcs && s.pcs[u] == s'.pcs[u]; }
    }
  }

  lemma BuiltFresh(s: State)
    requires ListOk(s) && OwnedOk(s)
    ensures |s.pushed| !in s.list && |s.pushed| !in s.owner
  {
  }

  lemma BuildApart(s: State, s': State, t: Tid)
    requires HeldOk(s) && ApartOk(s) && s'.pcs == s.pcs[t := Built(|s.pushed|)]
    ensures ApartOk(s')
  {
  }

  lemma BuildRest(s: State, t: Tid, p: Packet)
    requires MemOk(s)
    ensures ListOk(DoBuild(s, t, p)) && OwnedOk(DoBuild(s, t, p))
  {
    hide HeldOk, ApartOk;
  }

  lemma MemAppend(s: State, t: Tid)
    requires MemOk(s) && Enabled(s, t, Append)
    ensures MemOk(DoAppend(s, t))
  {
  }

  lemma MemUnlink(s: State, t: Tid)
    requires MemOk(s) && PeekOk(s) && Enabled(s, t, Unlink)
    ensures MemOk(DoUnlink(s, t))
  {
    if s.list != [] {
      var s', i := DoUnlink(s, t), s.list[0];
      assert s'.list == s.list[1..];
      MemMove(s, s', t, i);
    }
  }

  /** The head moves from the list into the hands of one thread. */
  lemma MemMove(s: State, s': State, t: Tid, i: Id)
    requires MemOk(s) && s.list != [] && i == s.list[0] && s.Pc(t).Holds() == None
    requires s' == s.(pcs := s.pcs[t := Unlinked(Some(i))], list := s.list[1..], unlinked := s'.unlinked)
    ensures MemOk(s')
  {
    assert forall k :: 0 <= k < |s'.list| ==> s'.list[k] == s.list[k + 1];
    assert i !in s'.list && Live(s, i, 1);
    assert forall j :: j in s'.list ==> j in s.list;
    assert OwnedOk(s') by { hide HeldOk, ApartOk, ListOk, Live; }
    assert ListOk(s') by { hide HeldOk, ApartOk, OwnedOk; }
    assert HeldOk(s') by { hide ApartOk, OwnedOk, ListOk; }
    hide OwnedOk, ListOk, HeldOk;
  }

  lemma MemRefBytes(s: State, t: Tid)
    requires MemOk(s) && Enabled(s, t, RefBytes)
    ensures MemOk(DoRefBytes(s, t))
  {
    var i := s.Pc(t).item;
    assert Live(s, i, 1) && i !in s.list;
    hide DoRefBytes;
    RefMoves(s, t, i);
    RefHeld(s, DoRefBytes(s, t), t, i);
    RefRest(s, DoRefBytes(s, t), t, i);
  }

  lemma RefMoves(s: State, t: Tid, i: Id)
    requires s.Pc(t) == Popped(i) && i < |s.pushed| && Live(s, i, 1)
    ensures DoRefBytes(s, t) ==
            s.(pcs := s.pcs[t := Referenced(i)], buffers := s.buffers[i := Buffer(2, s.pushed[i].bytes)])
  {
  }

  lemma RefHeld(s: State, s': State, t: Tid, i: Id)
    requires MemOk(s) && s.Pc(t) == Popped(i)
    requires s' == s.(pcs := s.pcs[t := Referenced(i)], buffers := s.buffers[i := Buffer(2, s.pushed[i].bytes)])
    ensures HeldOk(s') && ApartOk(s')
  {
    hide ListOk, OwnedOk;
  }

  lemma RefRest(s: State, s': State, t: Tid, i: Id)
    requires MemOk(s) && Live(s, i, 1) && i !in s.list
    requires s' == s.(pcs := s.pcs[t := Referenced(i)], buffers := s.buffers[i := Buffer(2, s.pushed[i].bytes)])
    ensures ListOk(s') && OwnedOk(s')
  {
    hide HeldOk, ApartOk;
  }

  /** The last reference to the item goes, and with it one of the two to the bytes. */
  lemma DerefMoves(s: State, t: Tid, i: Id)
    requires MemOk(s) && s.Pc(t) == Referenced(i)
    ensures Live(s, i, 2) && i !in s.list
    ensures DoDerefItem(s, t) ==
            s.(pcs := s.pcs[t := Idle], owner := s.owner[i := t], received := s.received[i := s.pushed[i]],
               handed := s.handed + [(t, i)],
               items := s.items - {i}, buffers := s.buffers[i := Buffer(1, s.pushed[i].bytes)])
  {
  }

  lemma MemDerefItem(s: State, t: Tid)
    requires MemOk(s) && Enabled(s, t, DerefItem)
    ensures MemOk(DoDerefItem(s, t))
  {
    var i := s.Pc(t).item;
    DerefMoves(s, t, i);
    hide DoDerefItem;
    DerefHeld(s, DoDerefItem(s, t), t, i);
    DerefRest(s, DoDerefItem(s, t), t, i);
  }

  lemma DerefHeld(s: State, s': State, t: Tid, i: Id)
    requires MemOk(s) && s.Pc(t) == Referenced(i)
    requires s' == s.(pcs := s.pcs[t := Idle], owner := s.owner[i := t], received := s.received[i := s.pushed[i]],
                      handed := s.handed + [(t, i)],
                      items := s.items - {i}, buffers := s.buffers[i := Buffer(1, s.pushed[i].bytes)])
    ensures HeldOk(s') && ApartOk(s')
  {
    hide ListOk, OwnedOk;
  }

  lemma DerefRest(s: State, s': State, t: Tid, i: Id)
    requires MemOk(s) && Live(s, i, 2) && i !in s.list
    requires s' == s.(pcs := s.pcs[t := Idle], owner := s.owner[i := t], received := s.received[i := s.pushed[i]],
                      handed := s.handed + [(t, i)],
                      items := s.items - {i}, buffers := s.buffers[i := Buffer(1, s.pushed[i].bytes)])
    ensures ListOk(s') && OwnedOk(s')
  {
    hide HeldOk, ApartOk;
  }

  lemma MemLocking(s: State, t: Tid, a: Step)
    requires MemOk(s) && Enabled(s, t, a) && (a.Lock? || a.Unlock?)
    ensures MemOk(Next(s, t, a))
  {
    hide MemOk;
    if a.Lock? {
      MemQuiet(s, DoLock(s, t), t, if s.Pc(t).Built? then PushLocked(s.Pc(t).item) else PopLocked);
    } else if s.Pc(t).Appended? {
      MemQuiet(s, DoUnlock(s, t), t, if s.blocking then ToPost else Idle);
    } else if s.Pc(t).head == None {
      MemQuiet(s, DoUnlock(s, t), t, Idle);
    } else {
      MemQuiet(s, DoUnlock(s, t), t, Popped(s.Pc(t).head.value));
    }
  }

  lemma MemCounting(s: State, t: Tid, a: Step)
    requires MemOk(s) && Enabled(s, t, a) && (a.Post? || a.Wait? || a.Peek?)
    ensures MemOk(Next(s, t, a))
  {
    hide MemOk;
    match a
    case Post => MemQuiet(s, DoPost(s, t), t, Idle);
    case Wait => MemQuiet(s, DoWait(s, t), t, Waited);
    case Peek => MemQuiet(s, DoPeek(s, t), t, Peeked(Head(s.list)));
  }

  lemma MemStep(s: State, t: Tid, a: Step)
    requires MemOk(s) && PeekOk(s) && Enabled(s, t, a)
    ensures MemOk(Next(s, t, a))
  {
    hide MemOk, PeekOk, DoLock, DoUnlock, DoPost, DoWait, DoPeek, DoUnlink, DoAppend, DoBuild, DoRefBytes, DoDerefItem;
    match a
    case Build(p) => MemBuild(s, t, p);
    case Append => MemAppend(s, t);
    case Unlink => MemUnlink(s, t);
    case RefBytes => MemRefBytes(s, t);
    case DerefItem => MemDerefItem(s, t);
    case Lock => MemLocking(s, t, a);
    case Unlock => MemLocking(s, t, a);
    case Post => MemCounting(s, t, a);
    case Wait => MemCounting(s, t, a);
    case Peek => MemCounting(s, t, a);
  }

  // ---- Nothing twice -----------------------------------------------------------------------

  predicate Distinct(s: seq<Id>) { forall j, k :: 0 <= j < k < |s| ==> s[j] != s[k] }

  /** No item is appended twice and no buffer handed out twice. */
  predicate OnceOk(s: State) {
    && Distinct(s.appended) && (forall i :: i in s.appended ==> i < |s.pushed|)
    && (forall t :: t in s.pcs && s.pcs[t].Pending().Some? ==>
          s.pcs[t].Pending().value < |s.pushed| && s.pcs[t].Pending().value !in s.appended)
    && (forall k :: 0 <= k < |s.handed| ==> s.handed[k].1 in s.owner && s.owner[s.handed[k].1] == s.handed[k].0)
    && (forall j, k :: 0 <= j < k < |s.handed| ==> s.handed[j].1 != s.handed[k].1)
  }

  lemma OnceQuiet(s: State, s': State, t: Tid, pc: Pc)
    requires OnceOk(s) && (pc.Pending().Some? ==> pc.Pending() == s.Pc(t).Pending())
    requires s'.pcs == s.pcs[t := pc] && s'.pushed == s.pushed && s'.appended == s.appended
    requires s'.owner == s.owner && s'.handed == s.handed
    ensures OnceOk(s')
  {
  }

  lemma OnceBuild(s: State, t: Tid, p: Packet)
    requires OnceOk(s)
    ensures OnceOk(DoBuild(s, t, p))
  {
  }

  lemma OnceAppend(s: State, t: Tid)
    requires OnceOk(s) && ApartOk(s) && Enabled(s, t, Append)
    ensures OnceOk(DoAppend(s, t))
  {
    var i := s.Pc(t).item;
    forall u | u in s.pcs && u != t && s.pcs[u].Pending().Some? ensures s.pcs[u].Pending() != Some(i) {
      assert s.pcs[u].Holds() == s.pcs[u].Pending() && s.pcs[t].Holds() == Some(i);
    }
  }

  lemma OnceHanded(s: State, t: Tid)
    requires OnceOk(s) && MemOk(s) && Enabled(s, t, DerefItem)
    ensures OnceOk(DoDerefItem(s, t))
  {
    var i := s.Pc(t).item;
    DerefMoves(s, t, i);
    hide MemOk, DoDerefItem;
    HandedNext(s, DoDerefItem(s, t), t, i);
  }

  lemma HandedNext(s: State, s': State, t: Tid, i: Id)
    requires OnceOk(s) && i !in s.owner
    requires s'.pcs == s.pcs[t := Idle] && s'.pushed == s.pushed && s'.appended == s.appended
    requires s'.owner == s.owner[i := t] && s'.handed == s.handed + [(t, i)]
    ensures OnceOk(s')
  {
  }

  lemma OnceStep(s: State, t: Tid, a: Step)
    requires OnceOk(s) && MemOk(s) && Enabled(s, t, a)
    ensures OnceOk(Next(s, t, a))
  {
    hide OnceOk, HeldOk, ListOk, OwnedOk, DoBuild, DoAppend, DoDerefItem;
    match a
    case Build(p) => OnceBuild(s, t, p);
    case Append => OnceAppend(s, t);
    case DerefItem => OnceHanded(s, t);
    case Lock => OnceLocking(s, t, a);
    case Unlock => OnceLocking(s, t, a);
    case Post => OnceOthers(s, t, a);
    case Wait => OnceOthers(s, t, a);
    case Peek => OnceOthers(s, t, a);
    case Unlink => OnceOthers(s, t, a);
    case RefBytes => OnceOthers(s, t, a);
  }

  lemma OnceLocking(s: State, t: Tid, a: Step)
    requires OnceOk(s) && Enabled(s, t, a) && (a.Lock? || a.Unlock?)
    ensures OnceOk(Next(s, t, a))
  {
    hide OnceOk;
    if a.Lock? {
      OnceQuiet(s, DoLock(s, t), t, if s.Pc(t).Built? then PushLocked(s.Pc(t).item) else PopLocked);
    } else if s.Pc(t).Appended? {
      OnceQuiet(s, DoUnlock(s, t), t, if s.blocking then ToPost else Idle);
    } else if s.Pc(t).head == None {
      OnceQuiet(s, DoUnlock(s, t), t, Idle);
    } else {
      OnceQuiet(s, DoUnlock(s, t), t, Popped(s.Pc(t).head.value));
    }
  }

  lemma OnceOthers(s: State, t: Tid, a: Step)
    requires OnceOk(s) && Enabled(s, t, a) && (a.Post? || a.Wait? || a.Peek? || a.Unlink? || a.RefBytes?)
    ensures OnceOk(Next(s, t, a))
  {
    hide OnceOk;
    match a
    case Post => OnceQuiet(s, DoPost(s, t), t, Idle);
    case Wait => OnceQuiet(s, DoWait(s, t), t, Waited);
    case Peek => OnceQuiet(s, DoPeek(s, t), t, Peeked(Head(s.list)));
    case Unlink => OnceQuiet(s, DoUnlink(s, t), t, Unlinked(s.Pc(t).head));
    case RefBytes => OnceQuiet(s, DoRefBytes(s, t), t, Referenced(s.Pc(t).item));
  }

  // ---- Every run -----------------------------------------------------------------------

  predicate Good(s: State) { Inv(s) && MemOk(s) && OnceOk(s) }

  lemma StepKeeps(s: State, t: Tid, a: Step)
    requires Good(s) && Enabled(s, t, a)
    ensures Good(Next(s, t, a)) && Next(s, t, a).blocking == s.blocking
  {
    hide MemOk, OnceOk, Enabled, LockOk, CountOk, FifoOk, DataOk, PeekOk;
    InvStep(s, t, a);
    MemStep(s, t, a);
    OnceStep(s, t, a);
    hide Inv;
  }

  lemma {:induction false} RunKeeps(s: State, run: seq<(Tid, Step)>)
    requires Good(s) && IsRun(s, run)
    ensures Good(After(s, run)) && After(s, run).blocking == s.blocking
    decreases |run|
  {
    hide Good, Next, Enabled;
    if run != [] {
      var (t, a) := run[0];
      StepKeeps(s, t, a);
      RunKeeps(Next(s, t, a), run[1..]);
    }
  }

  /** For every number of threads and every interleaving of their steps: the count law
      holds, items leave in the order they were appended and none twice, a blocking pop
      never returns ENODATA, no buffer is handed out twice, and every buffer handed out
      holds the bytes that were pushed, has one reference and is out of reach of the queue
      and of every thread inside it. */
  lemma EveryRun(blocking: bool, run: seq<(Tid, Step)>)
    requires IsRun(Init(blocking), run)
    ensures var s := After(Init(blocking), run);
            && (blocking ==> |s.list| == s.sem + |Owing(s.pcs)| && s.noData == 0)
            && s.unlinked <= s.appended && s.list == s.appended[|s.unlinked|..] && Distinct(s.unlinked)
            && (forall j, k :: 0 <= j < k < |s.handed| ==> s.handed[j].1 != s.handed[k].1)
            && (forall k :: 0 <= k < |s.handed| ==> HandedOk(s, s.handed[k].1))
  {
    InvInit(blocking);
    RunKeeps(Init(blocking), run);
    var s := After(Init(blocking), run);
    assert s.unlinked + s.list == s.appended;
    hide After, IsRun, Owing;
    forall k | 0 <= k < |s.handed| ensures HandedOk(s, s.handed[k].1) {
      HandedFacts(s, s.handed[k].1);
    }
    assert forall k :: 0 <= k < |s.unlinked| ==> s.unlinked[k] == s.appended[k];
  }

  predicate HandedOk(s: State, i: Id) {
    && i in s.received && i < |s.pushed| && s.received[i] == s.pushed[i]
    && i in s.buffers && s.buffers[i].refs == 1 && i !in s.items && i !in s.list
    && forall t :: t in s.pcs ==> s.pcs[t].Holds() != Some(i)
  }

  lemma HandedFacts(s: State, i: Id)
    requires MemOk(s) && i in s.owner
    ensures HandedOk(s, i)
  {
  }

  /** No deadlock: while any thread is inside push or pop, some thread that is inside
      can take its next step. */
  lemma NoDeadlock(s: State, t: Tid) returns (u: Tid, a: Step)
    requires Inv(s) && MemOk(s) && !s.Pc(t).Idle?
    ensures !s.Pc(u).Idle? && Enabled(s, u, a)
  {
    u := if (s.Pc(t).Built? || s.Pc(t).Waited?) && s.lock.Some? then s.lock.value else t;
    match s.Pc(u)
    case Built(_) => a := Lock;
    case PushLocked(_) => a := Append;
    case Appended => a := Unlock;
    case ToPost => a := Post;
    case Waited => a := Lock;
    case PopLocked => a := Peek;
    case Peeked(_) => a := Unlink;
    case Unlinked(_) => a := Unlock;
    case Popped(_) => a := RefBytes;
    case Referenced(_) => a := DerefItem;
  }
}
