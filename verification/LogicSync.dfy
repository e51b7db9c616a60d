/**
 LogicSync: the construction options that fill the lock pool, the lock a request
 gets, and the handlers that run method bodies under these locks.
 */
module LogicSync {
  import opened Wrappers

  const DEFAULT_POOL_SIZE: nat := 5000

  /** The options that matter here: WithLogicSync, WithLogicSyncPoolSize, any other. */
  datatype OptionFn = SyncMethod(name: string) | PoolSize(size: int) | Other

  // ---------------------------------------------------------------- what options amount to

  /** The size of the last pool that was asked for with a positive size. */
  function LastPositive(options: seq<OptionFn>): (r: Option<nat>)
    ensures r.Some? ==> r.value > 0
  {
    if options == [] then None
    else
      var op := options[|options| - 1];
      if op.PoolSize? && op.size > 0 then Some(op.size) else LastPositive(options[..|options| - 1])
  }

  ghost predicate Declares(options: seq<OptionFn>, name: string) {
    SyncMethod(name) in options
  }

  class Mutex {
    constructor () {}
  }

  ghost predicate Filled(pool: seq<Mutex>) {
    forall i, j :: 0 <= i < j < |pool| ==> pool[i] != pool[j]
  }

  /** make([]*sync.Mutex, size) with a new mutex in every slot. */
  method MakePool(size: nat) returns (pool: seq<Mutex>)
    ensures |pool| == size && Filled(pool) && fresh(pool)
  {
    pool := [];
    for i := 0 to size
      invariant |pool| == i && Filled(pool) && fresh(pool)
    {
      var m := new Mutex();
      pool := pool + [m];
    }
  }

  class Server {
    var logicSyncMethod: set<string>
    var logicLockPool: Option<seq<Mutex>>

    constructor ()
      ensures logicSyncMethod == {} && logicLockPool.None?
    {
      logicSyncMethod, logicLockPool := {}, None;
    }

    /** The state of a server to which options have been applied. */
    ghost predicate Built(options: seq<OptionFn>)
      reads this
    {
      && (forall name :: name in logicSyncMethod <==> Declares(options, name))
      && (logicLockPool.None? <==> LastPositive(options).None?)
      && (logicLockPool.Some? ==> |logicLockPool.value| == LastPositive(options).value && Filled(logicLockPool.value))
    }

    method Apply(op: OptionFn, ghost before: seq<OptionFn>)
      requires Built(before)
      modifies this
      ensures Built(before + [op])
    {
      assert (before + [op])[..|before|] == before;
      match op
      case SyncMethod(name) => logicSyncMethod := logicSyncMethod + {name};
      case PoolSize(size) =>
        if size > 0 {
          var pool := MakePool(size);
          logicLockPool := Some(pool);
        }
      case Other =>
    }
  }

  /** Whatever the options and their order: the last positive pool size counts, the default size is
      used only if a method is declared without any, and every slot of the pool holds its own mutex. */
  method NewServer(options: seq<OptionFn>) returns (s: Server)
    ensures fresh(s)
    ensures forall name :: name in s.logicSyncMethod <==> Declares(options, name)
    ensures s.logicLockPool.Some? ==> Filled(s.logicLockPool.value)
    ensures LastPositive(options).Some? ==>
              s.logicLockPool.Some? && |s.logicLockPool.value| == LastPositive(options).value
    ensures LastPositive(options).None? ==>
              if s.logicSyncMethod == {} then s.logicLockPool.None?
              else s.logicLockPool.Some? && |s.logicLockPool.value| == DEFAULT_POOL_SIZE
    ensures Slots(options) == if s.logicLockPool.Some? then |s.logicLockPool.value| else 0
  {
    s := new Server();
    for i := 0 to |options|
      invariant fresh(s) && s.Built(options[..i])
    {
      assert options[..i + 1] == options[..i] + [options[i]];
      s.Apply(options[i], options[..i]);
    }
    assert options[..|options|] == options;
    if s.logicLockPool.None? && s.logicSyncMethod != {} {
      var pool := MakePool(DEFAULT_POOL_SIZE);
      s.logicLockPool := Some(pool);
    }
    assert s.logicSyncMethod != {} <==> exists op <- options :: op.SyncMethod? by {
      if op :| op in options && op.SyncMethod? { assert op.name in s.logicSyncMethod; }
    }
  }

  // ---------------------------------------------------------------- the lock of a request

  /** What the context holds as the remote connection. */
  datatype Remote = Conn(addr: string) | Addr(addr: string) | Neither

  /** What the name of a request resolves to: a handler in the router, which is looked up first, a
      method of the service, or one of its raw functions. */
  datatype Kind = Routed | Method | Function

  /** A request; plain means the context is no share.Context. */
  datatype Request = Request(name: string, kind: Kind, plain: bool, hash: string, remote: Remote)

  /** The key a request is serialised by: its hash, or else the address it came from. */
  function Key(r: Request): string {
    if r.hash != "" then r.hash else if r.remote.Neither? then "" else r.remote.addr
  }

  /** The number of slots of a server built with the options. */
  function Slots(options: seq<OptionFn>): nat {
    if LastPositive(options).Some? then LastPositive(options).value
    else if exists op <- options :: op.SyncMethod? then DEFAULT_POOL_SIZE
    else 0
  }

  /** The slot whose mutex a request locks, if any: logicSyncLockOf behind the guards of
      handleRequest.  Routed handlers and raw functions never get there. */
  function SlotOf(options: seq<OptionFn>, hash: string -> nat, r: Request): (slot: Option<nat>)
    ensures slot.Some? ==> slot.value < Slots(options)
  {
    if r.kind.Method? && SyncMethod(r.name) in options && !r.plain && Slots(options) > 0
    then Some(hash(Key(r)) % Slots(options)) else None
  }

  /** A request for a declared name with a share.Context gets a lock exactly if the name resolves to a
      method, and methods with the same key get the same one. */
  lemma SameKeySameLock(options: seq<OptionFn>, hash: string -> nat, r: Request, r': Request)
    requires Declares(options, r.name) && Declares(options, r'.name) && !r.plain && !r'.plain && Key(r) == Key(r')
    ensures SlotOf(options, hash, r).Some? <==> r.kind.Method?
    ensures r.kind.Method? && r'.kind.Method? ==> SlotOf(options, hash, r) == SlotOf(options, hash, r')
  {
    assert SyncMethod(r.name).SyncMethod?;
  }

  // ---------------------------------------------------------------- handlers

  datatype Pc = Arrived | Locking(slot: nat) | Body(held: Option<nat>) | Returned

  datatype Handler = Handler(r: Request, pc: Pc)

  /** The handlers of a server and which of them holds which mutex. */
  datatype State = State(owner: map<nat, nat>, handlers: seq<Handler>)

  datatype Move = Receive(r: Request) | Step(h: nat)

  function Moved(s: State, h: nat, pc: Pc, owner: map<nat, nat>): State
    requires h < |s.handlers|
  {
    State(owner, s.handlers[h := s.handlers[h].(pc := pc)])
  }

  function HandlerStep(options: seq<OptionFn>, hash: string -> nat, s: State, h: nat): Option<State>
    requires h < |s.handlers|
  {
    var r := s.handlers[h].r;
    match s.handlers[h].pc
    case Arrived =>
      var slot := SlotOf(options, hash, r);
      Some(Moved(s, h, if slot.Some? then Locking(slot.value) else Body(None), s.owner))
    case Locking(slot) =>
      if slot in s.owner then None else Some(Moved(s, h, Body(Some(slot)), s.owner[slot := h]))
    case Body(held) =>
      Some(Moved(s, h, Returned, if held.Some? then s.owner - {held.value} else s.owner))
    case Returned => None
  }

  function Next(options: seq<OptionFn>, hash: string -> nat, s: State, m: Move): Option<State> {
    match m
    case Receive(r) => Some(State(s.owner, s.handlers + [Handler(r, Arrived)]))
    case Step(h) => if h < |s.handlers| then HandlerStep(options, hash, s, h) else None
  }

  function RunAll(options: seq<OptionFn>, hash: string -> nat, s: State, moves: seq<Move>): Option<State>
    decreases |moves|
  {
    if moves == [] then Some(s)
    else
      var r := Next(options, hash, s, moves[0]);
      if r.None? then None else RunAll(options, hash, r.value, moves[1..])
  }

  const IDLE: State := State(map[], [])

  /** A mutex is owned by exactly the handler that runs its body under it. */
  ghost predicate HandlerOk(options: seq<OptionFn>, hash: string -> nat, s: State, h: nat) {
    h < |s.handlers| ==>
      match s.handlers[h].pc
      case Arrived => true
      case Locking(slot) => SlotOf(options, hash, s.handlers[h].r) == Some(slot)
      case Body(held) =>
        && held == SlotOf(options, hash, s.handlers[h].r)
        && (held.Some? ==> held.value in s.owner && s.owner[held.value] == h)
      case Returned => true
  }

  ghost predicate OwnerOk(s: State, slot: nat) {
    slot in s.owner ==> s.owner[slot] < |s.handlers| && s.handlers[s.owner[slot]].pc == Body(Some(slot))
  }

  ghost predicate Inv(options: seq<OptionFn>, hash: string -> nat, s: State) {
    (forall h: nat :: HandlerOk(options, hash, s, h)) && (forall slot: nat :: OwnerOk(s, slot))
  }

  lemma NextKeepsInv(options: seq<OptionFn>, hash: string -> nat, s: State, m: Move)
    requires Inv(options, hash, s) && Next(options, hash, s, m).Some?
    ensures Inv(options, hash, Next(options, hash, s, m).value)
  {
    var s' := Next(options, hash, s, m).value;
    if m.Step? { assert HandlerOk(options, hash, s, m.h); }
    forall h: nat ensures HandlerOk(options, hash, s', h) {
      assert HandlerOk(options, hash, s, h);
    }
    forall slot: nat ensures OwnerOk(s', slot) {
      assert OwnerOk(s, slot);
    }
  }

  lemma {:induction false} RunKeepsInv(options: seq<OptionFn>, hash: string -> nat, s: State, moves: seq<Move>)
    requires Inv(options, hash, s) && RunAll(options, hash, s, moves).Some?
    ensures Inv(options, hash, RunAll(options, hash, s, moves).value)
    decreases |moves|
  {
    if moves != [] {
      NextKeepsInv(options, hash, s, moves[0]);
      RunKeepsInv(options, hash, Next(options, hash, s, moves[0]).value, moves[1..]);
    }
  }

  /** In every run, two bodies whose requests lock the same slot never overlap. */
  lemma SameSlotNeverOverlaps(options: seq<OptionFn>, hash: string -> nat, moves: seq<Move>, s: State, h: nat, h': nat)
    requires RunAll(options, hash, IDLE, moves) == Some(s) && h < |s.handlers| && h' < |s.handlers|
    requires s.handlers[h].pc.Body? && s.handlers[h'].pc.Body?
    requires SlotOf(options, hash, s.handlers[h].r).Some?
    requires SlotOf(options, hash, s.handlers[h].r) == SlotOf(options, hash, s.handlers[h'].r)
    ensures h == h'
  {
    RunKeepsInv(options, hash, IDLE, moves);
    assert HandlerOk(options, hash, s, h) && HandlerOk(options, hash, s, h');
  }

  /** Some run gets two handlers, of requests r and r', into their bodies at the same time. */
  ghost predicate CanOverlap(options: seq<OptionFn>, hash: string -> nat, r: Request, r': Request) {
    exists moves, s, h: nat, h': nat :: Overlaps(options, hash, moves, s, h, h', r, r')
  }

  ghost predicate Overlaps(
    options: seq<OptionFn>, hash: string -> nat, moves: seq<Move>, s: State, h: nat, h': nat, r: Request, r': Request)
  {
    && RunAll(options, hash, IDLE, moves) == Some(s) && h < |s.handlers| && h' < |s.handlers| && h != h'
    && s.handlers[h] == Handler(r, s.handlers[h].pc) && s.handlers[h].pc.Body?
    && s.handlers[h'] == Handler(r', s.handlers[h'].pc) && s.handlers[h'].pc.Body?
  }

  /** The steps that bring handler h from its arrival into its body. */
  function Entering(slot: Option<nat>, h: nat): seq<Move> {
    if slot.Some? then [Step(h), Step(h)] else [Step(h)]
  }

  lemma {:induction false} RunConcat(options: seq<OptionFn>, hash: string -> nat, s: State, a: seq<Move>, b: seq<Move>)
    requires RunAll(options, hash, s, a).Some?
    ensures RunAll(options, hash, s, a + b) == RunAll(options, hash, RunAll(options, hash, s, a).value, b)
    decreases |a|
  {
    if a == [] {
      assert a + b == b;
    } else {
      assert (a + b)[1..] == a[1..] + b;
      RunConcat(options, hash, Next(options, hash, s, a[0]).value, a[1..], b);
    }
  }

  lemma RunOne(options: seq<OptionFn>, hash: string -> nat, s: State, m: Move)
    ensures RunAll(options, hash, s, [m]) == Next(options, hash, s, m)
  {
    assert [m][1..] == [];
  }

  /** A handler whose slot is free, or that needs none, gets into its body. */
  lemma Enters(options: seq<OptionFn>, hash: string -> nat, s: State, h: nat) returns (s': State)
    requires h < |s.handlers| && s.handlers[h].pc.Arrived?
    requires var slot := SlotOf(options, hash, s.handlers[h].r); slot.Some? ==> slot.value !in s.owner
    ensures var slot := SlotOf(options, hash, s.handlers[h].r);
            && RunAll(options, hash, s, Entering(slot, h)) == Some(s')
            && s'.handlers == s.handlers[h := s.handlers[h].(pc := Body(slot))]
            && s'.owner == if slot.Some? then s.owner[slot.value := h] else s.owner
  {
    var slot := SlotOf(options, hash, s.handlers[h].r);
    var s1 := HandlerStep(options, hash, s, h).value;
    RunOne(options, hash, s, Step(h));
    if slot.Some? {
      s' := HandlerStep(options, hash, s1, h).value;
      RunOne(options, hash, s1, Step(h));
      RunConcat(options, hash, s, [Step(h)], [Step(h)]);
      assert [Step(h), Step(h)] == [Step(h)] + [Step(h)];
    } else {
      s' := s1;
    }
  }

  lemma ArriveBoth(options: seq<OptionFn>, hash: string -> nat, r: Request, r': Request)
    ensures RunAll(options, hash, IDLE, [Receive(r), Receive(r')])
         == Some(State(map[], [Handler(r, Arrived), Handler(r', Arrived)]))
  {
    var s1 := State(map[], [Handler(r, Arrived)]);
    assert IDLE.handlers + [Handler(r, Arrived)] == s1.handlers;
    assert s1.handlers + [Handler(r', Arrived)] == [Handler(r, Arrived), Handler(r', Arrived)];
    RunOne(options, hash, IDLE, Receive(r));
    RunOne(options, hash, s1, Receive(r'));
    RunConcat(options, hash, IDLE, [Receive(r)], [Receive(r')]);
    assert [Receive(r), Receive(r')] == [Receive(r)] + [Receive(r')];
  }

  lemma DifferentSlotsOverlap(options: seq<OptionFn>, hash: string -> nat, r: Request, r': Request)
    requires SlotOf(options, hash, r).None? || SlotOf(options, hash, r) != SlotOf(options, hash, r')
    ensures CanOverlap(options, hash, r, r')
  {
    var s0 := State(map[], [Handler(r, Arrived), Handler(r', Arrived)]);
    var a, b := Entering(SlotOf(options, hash, r), 0), Entering(SlotOf(options, hash, r'), 1);
    ArriveBoth(options, hash, r, r');
    var s1 := Enters(options, hash, s0, 0);
    var s2 := Enters(options, hash, s1, 1);
    RunConcat(options, hash, s0, a, b);
    RunConcat(options, hash, IDLE, [Receive(r), Receive(r')], a + b);
    assert Overlaps(options, hash, [Receive(r), Receive(r')] + (a + b), s2, 0, 1, r, r');
  }

  /** Over all runs of a server built with any options: bodies of two requests never overlap exactly
      if both lock, and lock the same slot. */
  lemma OverlapIff(options: seq<OptionFn>, hash: string -> nat, r: Request, r': Request)
    ensures CanOverlap(options, hash, r, r') <==>
              SlotOf(options, hash, r).None? || SlotOf(options, hash, r) != SlotOf(options, hash, r')
  {
    if SlotOf(options, hash, r).None? || SlotOf(options, hash, r) != SlotOf(options, hash, r') {
      DifferentSlotsOverlap(options, hash, r, r');
    } else if CanOverlap(options, hash, r, r') {
      var moves, s, h: nat, h': nat :| Overlaps(options, hash, moves, s, h, h', r, r');
      SameSlotNeverOverlaps(options, hash, moves, s, h, h');
    }
  }

  /** Requests for declared names with the same key and share contexts are serialised exactly if both
      names resolve to methods: raw functions and routed handlers overlap. */
  lemma BodiesNeverOverlapIff(options: seq<OptionFn>, hash: string -> nat, r: Request, r': Request)
    requires Declares(options, r.name) && Declares(options, r'.name) && !r.plain && !r'.plain && Key(r) == Key(r')
    ensures !CanOverlap(options, hash, r, r') <==> r.kind.Method? && r'.kind.Method?
  {
    OverlapIff(options, hash, r, r');
    SameKeySameLock(options, hash, r, r');
    SameKeySameLock(options, hash, r', r);
  }

  /** In particular two calls of a declared raw function with one key run side by side. */
  lemma DeclaredFunctionsOverlap(hash: string -> nat, key: string)
    requires key != ""
    ensures var r := Request("S.F", Function, false, key, Neither); CanOverlap([SyncMethod("S.F")], hash, r, r)
  {
    var r := Request("S.F", Function, false, key, Neither);
    BodiesNeverOverlapIff([SyncMethod("S.F")], hash, r, r);
  }

  /** Handler h is in a body under the lock of request r, and can return. */
  ghost predicate CanReturn(options: seq<OptionFn>, hash: string -> nat, s: State, h: nat, r: Request) {
    && h < |s.handlers| && s.handlers[h].pc == Body(SlotOf(options, hash, r))
    && Next(options, hash, s, Step(h)).Some?
  }

  /** A handler waits only for a body that runs under the same slot, and that body can return. */
  lemma WaitsOnlyForItsSlot(options: seq<OptionFn>, hash: string -> nat, moves: seq<Move>, s: State, h: nat)
    requires RunAll(options, hash, IDLE, moves) == Some(s) && h < |s.handlers| && !s.handlers[h].pc.Returned?
    ensures Next(options, hash, s, Step(h)).Some?
         || (s.handlers[h].pc.Locking? && exists h': nat :: CanReturn(options, hash, s, h', s.handlers[h].r))
  {
    RunKeepsInv(options, hash, IDLE, moves);
    assert HandlerOk(options, hash, s, h);
    if s.handlers[h].pc.Locking? && s.handlers[h].pc.slot in s.owner {
      assert OwnerOk(s, s.handlers[h].pc.slot);
      assert CanReturn(options, hash, s, s.owner[s.handlers[h].pc.slot], s.handlers[h].r);
    }
  }
}
