/**
 * The typed key/value store behind every message channel (environment, request, common, local).
 *
 * A key is defined once, together with a declared type and a value; it then stays defined for
 * ever with that type.  Only its value can be removed, which the channel calls "consumed".
 * This module gives the meaning of each channel operation as a function from the store's
 * contents to the new contents and the reply (a value, or the error the operation raises),
 * and proves what the operations promise about each other.
 */
module MessageModel {
  import opened Wrappers

  /** A Python class together with its direct base classes. */
  datatype PyType = PyType(name: string, bases: seq<PyType>)

  /** `type(None)`: a class without bases, so a None value is an instance of it alone. */
  const NoneType: PyType := PyType("NoneType", [])

  /** `issubclass(t, u)`: `u` is `t` or one of its ancestors. */
  predicate IsSubclass(t: PyType, u: PyType)
    decreases t
  {
    t == u || exists i | 0 <= i < |t.bases| :: IsSubclass(t.bases[i], u)
  }

  /** A value written to a channel; `cls` is `type(value)`, `data` its content. */
  datatype Value = Value(cls: PyType, data: string)

  /** `isinstance(v, t)`: the covariant check applied to written values. */
  predicate IsInstance(v: Value, t: PyType) {
    IsSubclass(v.cls, t)
  }

  /** A key is a string or an Enum member, never None. */
  datatype Key = StrKey(name: string) | EnumKey(enumClass: string, member: string)

  /** A defined key's declared type and its value, absent once consumed. */
  datatype Slot = Slot(typ: PyType, value: Option<Value>)

  type Slots = map<Key, Slot>

  /** The two kinds of type mismatch, plus `type(None)` given as a declared type. */
  datatype TypeMismatch =
    | NotIdenticalType   // the `typ` argument is not exactly the key's declared type
    | NotInstance        // the value is not an instance of the key's declared type
    | NoneTypeDeclared   // `define` was given `type(None)`

  datatype MessageError =
    | MessageKeyError
    | MessageTypeError(mismatch: TypeMismatch)
    | ConsumedError
    | RedefineError

  /** The store after an operation, and what the operation returned or raised. */
  datatype Step<+T> = Step(store: Slots, reply: Result<T, MessageError>)

  /** Every declared type is a real type and every present value is an instance of it. */
  ghost predicate WellTyped(m: Slots) {
    forall k | k in m :: m[k].typ != NoneType && (m[k].value.Some? ==> IsInstance(m[k].value.value, m[k].typ))
  }

  /** Same keys, each with the same declared type. */
  ghost predicate KeepsKeys(m: Slots, n: Slots) {
    m.Keys == n.Keys && forall k | k in m :: n[k].typ == m[k].typ
  }

  /** Every slot other than `key` is untouched. */
  ghost predicate ChangesOnly(m: Slots, n: Slots, key: Key) {
    forall k | k in m && k != key :: k in n && n[k] == m[k]
  }

  // ---------------------------------------------------------------------------------------
  // MessageReader / MessageUpdater / MessageDefiner

  /**
   * `get(key, typ)`.  An undefined key raises MessageKeyError; a consumed slot raises
   * ConsumedError, the error the exception classes assign to a missing value.
   */
  function Get(m: Slots, key: Key, typ: PyType): (r: Result<Value, MessageError>)
    ensures r.Success? <==> key in m && m[key].value.Some? && m[key].typ == typ
    ensures key !in m ==> r == Failure(MessageKeyError)
    ensures key in m && m[key].value.None? ==> r == Failure(ConsumedError)
    ensures key in m && m[key].value.Some? && m[key].typ != typ ==> r == Failure(MessageTypeError(NotIdenticalType))
    ensures r.Success? ==> m[key].value == Some(r.value)
    ensures WellTyped(m) && r.Success? ==> IsInstance(r.value, typ)
  {
    if key !in m then Failure(MessageKeyError)
    else if m[key].value.None? then Failure(ConsumedError)
    else if typ != m[key].typ then Failure(MessageTypeError(NotIdenticalType))
    else Success(m[key].value.value)
  }

  /** `set(key, typ, value)`: unconditional overwrite, consumed or not. */
  function Set(m: Slots, key: Key, typ: PyType, v: Value): (s: Step<()>)
    ensures s.reply.Success? <==> key in m && m[key].typ == typ && IsInstance(v, typ)
    ensures key !in m ==> s.reply == Failure(MessageKeyError)
    ensures key in m && m[key].typ != typ ==> s.reply == Failure(MessageTypeError(NotIdenticalType))
    ensures key in m && m[key].typ == typ && !IsInstance(v, typ) ==> s.reply == Failure(MessageTypeError(NotInstance))
    ensures s.reply.Failure? ==> s.store == m
    ensures KeepsKeys(m, s.store) && ChangesOnly(m, s.store, key)
    ensures s.reply.Success? ==> Get(s.store, key, typ) == Success(v)
    ensures WellTyped(m) ==> WellTyped(s.store)
  {
    if key !in m then Step(m, Failure(MessageKeyError))
    else if typ != m[key].typ then Step(m, Failure(MessageTypeError(NotIdenticalType)))
    else if !IsInstance(v, typ) then Step(m, Failure(MessageTypeError(NotInstance)))
    else Step(m[key := Slot(typ, Some(v))], Success(()))
  }

  /** `swap(key, typ, value)`: installs `value` and returns the previous one. */
  function Swap(m: Slots, key: Key, typ: PyType, v: Value): (s: Step<Value>)
    ensures s.reply.Success? <==> key in m && m[key].value.Some? && m[key].typ == typ && IsInstance(v, typ)
    ensures key !in m ==> s.reply == Failure(MessageKeyError)
    ensures key in m && m[key].value.None? ==> s.reply == Failure(ConsumedError)
    ensures key in m && m[key].value.Some? && m[key].typ != typ ==> s.reply == Failure(MessageTypeError(NotIdenticalType))
    ensures key in m && m[key].value.Some? && m[key].typ == typ && !IsInstance(v, typ) ==>
      s.reply == Failure(MessageTypeError(NotInstance))
    ensures s.reply.Failure? ==> s.store == m
    ensures KeepsKeys(m, s.store) && ChangesOnly(m, s.store, key)
    ensures s.reply.Success? ==> Get(m, key, typ) == Success(s.reply.value) && Get(s.store, key, typ) == Success(v)
    ensures WellTyped(m) ==> WellTyped(s.store)
  {
    if key !in m then Step(m, Failure(MessageKeyError))
    else if m[key].value.None? then Step(m, Failure(ConsumedError))
    else if typ != m[key].typ then Step(m, Failure(MessageTypeError(NotIdenticalType)))
    else if !IsInstance(v, typ) then Step(m, Failure(MessageTypeError(NotInstance)))
    else Step(m[key := Slot(typ, Some(v))], Success(m[key].value.value))
  }

  /** `apply(key, typ, fn)`: stores `fn(old)` and returns it. */
  function Apply(m: Slots, key: Key, typ: PyType, fn: Value -> Value): (s: Step<Value>)
    ensures s.reply.Success? <==>
      key in m && m[key].value.Some? && m[key].typ == typ && IsInstance(fn(m[key].value.value), typ)
    ensures key !in m ==> s.reply == Failure(MessageKeyError)
    ensures key in m && m[key].value.None? ==> s.reply == Failure(ConsumedError)
    ensures key in m && m[key].value.Some? && m[key].typ != typ ==> s.reply == Failure(MessageTypeError(NotIdenticalType))
    ensures key in m && m[key].value.Some? && m[key].typ == typ && !IsInstance(fn(m[key].value.value), typ) ==>
      s.reply == Failure(MessageTypeError(NotInstance))
    ensures s.reply.Failure? ==> s.store == m
    ensures KeepsKeys(m, s.store) && ChangesOnly(m, s.store, key)
    ensures s.reply.Success? ==>
      s.reply.value == fn(m[key].value.value) && Get(s.store, key, typ) == Success(s.reply.value)
    ensures WellTyped(m) ==> WellTyped(s.store)
  {
    if key !in m then Step(m, Failure(MessageKeyError))
    else if m[key].value.None? then Step(m, Failure(ConsumedError))
    else if typ != m[key].typ then Step(m, Failure(MessageTypeError(NotIdenticalType)))
    else
      var nv := fn(m[key].value.value);
      if !IsInstance(nv, typ) then Step(m, Failure(MessageTypeError(NotInstance)))
      else Step(m[key := Slot(typ, Some(nv))], Success(nv))
  }

  /**
   * `offer(key, value)`: writes only into a consumed slot.  The value is checked against the
   * key's declared type like every other write (see OfferAsWritten for the unchecked form).
   */
  function Offer(m: Slots, key: Key, v: Value): (s: Step<bool>)
    ensures key !in m ==> s.reply == Failure(MessageKeyError)
    ensures key in m && !IsInstance(v, m[key].typ) ==> s.reply == Failure(MessageTypeError(NotInstance))
    ensures s.reply == Success(true) <==> key in m && m[key].value.None? && IsInstance(v, m[key].typ)
    ensures s.reply == Success(false) <==> key in m && m[key].value.Some? && IsInstance(v, m[key].typ)
    ensures s.reply != Success(true) ==> s.store == m
    ensures KeepsKeys(m, s.store) && ChangesOnly(m, s.store, key)
    ensures s.reply == Success(true) ==> Get(s.store, key, m[key].typ) == Success(v)
    ensures WellTyped(m) ==> WellTyped(s.store)
  {
    if key !in m then Step(m, Failure(MessageKeyError))
    else if !IsInstance(v, m[key].typ) then Step(m, Failure(MessageTypeError(NotInstance)))
    else if m[key].value.None? then Step(m[key := Slot(m[key].typ, Some(v))], Success(true))
    else Step(m, Success(false))
  }

  /**
   * `ensure(key, value)`: writes only over a present value, the dual of `offer`.  The value is
   * checked against the key's declared type (see EnsureAsWritten for the unchecked form).
   */
  function Ensure(m: Slots, key: Key, v: Value): (s: Step<bool>)
    ensures key !in m ==> s.reply == Failure(MessageKeyError)
    ensures key in m && !IsInstance(v, m[key].typ) ==> s.reply == Failure(MessageTypeError(NotInstance))
    ensures s.reply == Success(true) <==> key in m && m[key].value.Some? && IsInstance(v, m[key].typ)
    ensures s.reply == Success(false) <==> key in m && m[key].value.None? && IsInstance(v, m[key].typ)
    ensures s.reply != Success(true) ==> s.store == m
    ensures KeepsKeys(m, s.store) && ChangesOnly(m, s.store, key)
    ensures s.reply == Success(true) ==> Get(s.store, key, m[key].typ) == Success(v)
    ensures WellTyped(m) ==> WellTyped(s.store)
  {
    if key !in m then Step(m, Failure(MessageKeyError))
    else if !IsInstance(v, m[key].typ) then Step(m, Failure(MessageTypeError(NotInstance)))
    else if m[key].value.Some? then Step(m[key := Slot(m[key].typ, Some(v))], Success(true))
    else Step(m, Success(false))
  }

  /** `consume(key, typ)`: removes the value, keeps the key and its type, returns the value. */
  function Consume(m: Slots, key: Key, typ: PyType): (s: Step<Value>)
    ensures s.reply.Success? <==> key in m && m[key].typ == typ && m[key].value.Some?
    ensures key !in m ==> s.reply == Failure(MessageKeyError)
    ensures key in m && m[key].typ != typ ==> s.reply == Failure(MessageTypeError(NotIdenticalType))
    ensures key in m && m[key].typ == typ && m[key].value.None? ==> s.reply == Failure(ConsumedError)
    ensures s.reply.Failure? ==> s.store == m
    ensures KeepsKeys(m, s.store) && ChangesOnly(m, s.store, key)
    ensures s.reply.Success? ==> Get(m, key, typ) == Success(s.reply.value) && s.store[key].value.None?
    ensures WellTyped(m) ==> WellTyped(s.store)
  {
    if key !in m then Step(m, Failure(MessageKeyError))
    else if typ != m[key].typ then Step(m, Failure(MessageTypeError(NotIdenticalType)))
    else if m[key].value.None? then Step(m, Failure(ConsumedError))
    else Step(m[key := Slot(typ, None)], Success(m[key].value.value))
  }

  /** `consume_and(key, typ, value)`: returns the removed value and installs `value` in its place. */
  function ConsumeAnd(m: Slots, key: Key, typ: PyType, v: Value): (s: Step<Value>)
    ensures s.reply.Success? <==> key in m && m[key].typ == typ && IsInstance(v, typ) && m[key].value.Some?
    ensures key !in m ==> s.reply == Failure(MessageKeyError)
    ensures key in m && m[key].typ != typ ==> s.reply == Failure(MessageTypeError(NotIdenticalType))
    ensures key in m && m[key].typ == typ && !IsInstance(v, typ) ==> s.reply == Failure(MessageTypeError(NotInstance))
    ensures key in m && m[key].typ == typ && IsInstance(v, typ) && m[key].value.None? ==> s.reply == Failure(ConsumedError)
    ensures s.reply.Failure? ==> s.store == m
    ensures KeepsKeys(m, s.store) && ChangesOnly(m, s.store, key)
    ensures s.reply.Success? ==> Get(m, key, typ) == Success(s.reply.value) && Get(s.store, key, typ) == Success(v)
    ensures WellTyped(m) ==> WellTyped(s.store)
  {
    if key !in m then Step(m, Failure(MessageKeyError))
    else if typ != m[key].typ then Step(m, Failure(MessageTypeError(NotIdenticalType)))
    else if !IsInstance(v, typ) then Step(m, Failure(MessageTypeError(NotInstance)))
    else if m[key].value.None? then Step(m, Failure(ConsumedError))
    else Step(m[key := Slot(typ, Some(v))], Success(m[key].value.value))
  }

  /** `define(key, typ, value)`: the only operation that adds a key. */
  function Define(m: Slots, key: Key, typ: PyType, v: Value): (s: Step<()>)
    ensures s.reply.Success? <==> key !in m && typ != NoneType && IsInstance(v, typ)
    ensures key in m ==> s.reply == Failure(RedefineError)
    ensures key !in m && typ == NoneType ==> s.reply == Failure(MessageTypeError(NoneTypeDeclared))
    ensures key !in m && typ != NoneType && !IsInstance(v, typ) ==> s.reply == Failure(MessageTypeError(NotInstance))
    ensures s.reply.Failure? ==> s.store == m
    ensures s.reply.Success? ==> s.store.Keys == m.Keys + {key} && ChangesOnly(m, s.store, key)
    ensures s.reply.Success? ==> Get(s.store, key, typ) == Success(v)
    ensures WellTyped(m) ==> WellTyped(s.store)
  {
    if key in m then Step(m, Failure(RedefineError))
    else if typ == NoneType then Step(m, Failure(MessageTypeError(NoneTypeDeclared)))
    else if !IsInstance(v, typ) then Step(m, Failure(MessageTypeError(NotInstance)))
    else Step(m[key := Slot(typ, Some(v))], Success(()))
  }

  // ---------------------------------------------------------------------------------------
  // BatchOperator: the accessors available while a batch holds the channel's lock

  /** `exists_key(key)`: true exactly when defining the key again would be refused. */
  function ExistsKey(m: Slots, key: Key): (r: bool)
    ensures forall t, v :: r <==> Define(m, key, t, v).reply == Failure(RedefineError)
  {
    key in m
  }

  /** `get_value(key, typ)`: reads a present value; a consumed slot raises ConsumedError. */
  function GetValue(m: Slots, key: Key, typ: PyType): (r: Result<Value, MessageError>)
    ensures r.Success? <==> key in m && m[key].value.Some?
    ensures key !in m ==> r == Failure(MessageKeyError)
    ensures key in m && m[key].value.None? ==> r == Failure(ConsumedError)
    ensures r.Success? ==> m[key].value == Some(r.value)
    ensures key in m && typ == m[key].typ && r.Success? ==> Get(m, key, typ) == r
  {
    if key !in m then Failure(MessageKeyError)
    else if m[key].value.None? then Failure(ConsumedError)
    else Success(m[key].value.value)
  }

  /** `consumed(key)`: whether the slot's value has been removed. */
  function IsConsumed(m: Slots, key: Key): (r: Result<bool, MessageError>)
    ensures key !in m <==> r == Failure(MessageKeyError)
    ensures forall t :: r == Success(true) <==> GetValue(m, key, t) == Failure(ConsumedError)
  {
    if key !in m then Failure(MessageKeyError) else Success(m[key].value.None?)
  }

  /** `set_value(key, value)`: `set` with the key's own declared type. */
  function SetValue(m: Slots, key: Key, v: Value): (s: Step<()>)
    ensures key !in m ==> s.reply == Failure(MessageKeyError)
    ensures key in m ==> s == Set(m, key, m[key].typ, v)
  {
    if key !in m then Step(m, Failure(MessageKeyError))
    else if !IsInstance(v, m[key].typ) then Step(m, Failure(MessageTypeError(NotInstance)))
    else Step(m[key := Slot(m[key].typ, Some(v))], Success(()))
  }

  /** One call on the batch operator (`consume_value` has the contract of `consume`). */
  datatype BatchOp =
    | ExistsKeyOp(key: Key)
    | GetValueOp(key: Key, typ: PyType)
    | ConsumedOp(key: Key)
    | SetValueOp(key: Key, v: Value)
    | ConsumeValueOp(key: Key, typ: PyType)

  datatype BatchReply = KeyExists(present: bool) | GotValue(v: Value) | WasConsumed(consumed: bool) | ValueSet | ValueConsumed(v: Value)

  function BatchStep(m: Slots, op: BatchOp): (s: Step<BatchReply>)
    ensures s.reply.Failure? ==> s.store == m
    ensures KeepsKeys(m, s.store) && ChangesOnly(m, s.store, op.key)
    ensures WellTyped(m) ==> WellTyped(s.store)
  {
    match op
    case ExistsKeyOp(key) => Step(m, Success(KeyExists(ExistsKey(m, key))))
    case GetValueOp(key, typ) =>
      var r := GetValue(m, key, typ);
      Step(m, if r.Success? then Success(GotValue(r.value)) else Failure(r.error))
    case ConsumedOp(key) =>
      var r := IsConsumed(m, key);
      Step(m, if r.Success? then Success(WasConsumed(r.value)) else Failure(r.error))
    case SetValueOp(key, v) =>
      var s := SetValue(m, key, v);
      Step(s.store, if s.reply.Success? then Success(ValueSet) else Failure(s.reply.error))
    case ConsumeValueOp(key, typ) =>
      var s := Consume(m, key, typ);
      Step(s.store, if s.reply.Success? then Success(ValueConsumed(s.reply.value)) else Failure(s.reply.error))
  }

  datatype BatchRun = BatchRun(store: Slots, replies: seq<Result<BatchReply, MessageError>>)

  /**
   * The calls made inside one `with channel.batch() as op:` block, in order, while the lock is
   * held.  A call that raises leaves the block: the calls after it do not run, and the changes
   * made before it stay.
   */
  function RunBatch(m: Slots, ops: seq<BatchOp>): (b: BatchRun)
    ensures |b.replies| <= |ops|
    ensures forall i | 0 <= i < |b.replies| - 1 :: b.replies[i].Success?
    ensures |b.replies| < |ops| ==> |b.replies| > 0 && b.replies[|b.replies| - 1].Failure?
    ensures |ops| > 0 ==> |b.replies| > 0
    decreases |ops|
  {
    if ops == [] then BatchRun(m, [])
    else
      var s := BatchStep(m, ops[0]);
      if s.reply.Failure? then BatchRun(s.store, [s.reply])
      else
        var rest := RunBatch(s.store, ops[1..]);
        BatchRun(rest.store, [s.reply] + rest.replies)
  }

  /** A batch runs its first call, and then the rest of the calls only if the first succeeded. */
  lemma RunBatchFirst(m: Slots, ops: seq<BatchOp>)
    requires ops != []
    ensures var s := BatchStep(m, ops[0]);
      RunBatch(m, ops) ==
        if s.reply.Failure? then BatchRun(s.store, [s.reply])
        else BatchRun(RunBatch(s.store, ops[1..]).store, [s.reply] + RunBatch(s.store, ops[1..]).replies)
  {
  }

  /** A batch neither adds nor removes keys, nor changes a declared type. */
  lemma {:induction false} BatchKeepsKeys(m: Slots, ops: seq<BatchOp>)
    ensures KeepsKeys(m, RunBatch(m, ops).store)
    decreases |ops|
  {
    if ops != [] {
      var s := BatchStep(m, ops[0]);
      if s.reply.Success? {
        BatchKeepsKeys(s.store, ops[1..]);
      }
    }
  }

  /** A batch keeps every present value an instance of its key's declared type. */
  lemma {:induction false} BatchKeepsTyping(m: Slots, ops: seq<BatchOp>)
    requires WellTyped(m)
    ensures WellTyped(RunBatch(m, ops).store)
    decreases |ops|
  {
    if ops != [] {
      var s := BatchStep(m, ops[0]);
      if s.reply.Success? {
        BatchKeepsTyping(s.store, ops[1..]);
      }
    }
  }

  // ---------------------------------------------------------------------------------------
  // Any sequence of channel operations

  /** Every operation that can change a channel. */
  datatype Op =
    | DefineOp(key: Key, typ: PyType, v: Value)
    | SetOp(key: Key, typ: PyType, v: Value)
    | SwapOp(key: Key, typ: PyType, v: Value)
    | ApplyOp(key: Key, typ: PyType, fn: Value -> Value)
    | OfferOp(key: Key, v: Value)
    | EnsureOp(key: Key, v: Value)
    | ConsumeOp(key: Key, typ: PyType)
    | ConsumeAndOp(key: Key, typ: PyType, v: Value)
    | BatchBlock(ops: seq<BatchOp>)

  function StoreAfter(m: Slots, op: Op): Slots {
    match op
    case DefineOp(key, typ, v) => Define(m, key, typ, v).store
    case SetOp(key, typ, v) => Set(m, key, typ, v).store
    case SwapOp(key, typ, v) => Swap(m, key, typ, v).store
    case ApplyOp(key, typ, fn) => Apply(m, key, typ, fn).store
    case OfferOp(key, v) => Offer(m, key, v).store
    case EnsureOp(key, v) => Ensure(m, key, v).store
    case ConsumeOp(key, typ) => Consume(m, key, typ).store
    case ConsumeAndOp(key, typ, v) => ConsumeAnd(m, key, typ, v).store
    case BatchBlock(ops) => RunBatch(m, ops).store
  }

  function RunOps(m: Slots, ops: seq<Op>): Slots
    decreases |ops|
  {
    if ops == [] then m else RunOps(StoreAfter(m, ops[0]), ops[1..])
  }

  /** One operation never undefines a key nor changes its declared type. */
  lemma OpKeepsKeys(m: Slots, op: Op)
    ensures m.Keys <= StoreAfter(m, op).Keys
    ensures forall k | k in m :: StoreAfter(m, op)[k].typ == m[k].typ
    ensures WellTyped(m) ==> WellTyped(StoreAfter(m, op))
  {
    match op
    case BatchBlock(ops) =>
      BatchKeepsKeys(m, ops);
      if WellTyped(m) { BatchKeepsTyping(m, ops); }
    case _ =>
  }

  /** Once defined, a key stays defined for ever with the type it was defined with. */
  lemma {:induction false} KeysArePermanent(m: Slots, ops: seq<Op>)
    ensures m.Keys <= RunOps(m, ops).Keys
    ensures forall k | k in m :: RunOps(m, ops)[k].typ == m[k].typ
    decreases |ops|
  {
    if ops != [] {
      OpKeepsKeys(m, ops[0]);
      KeysArePermanent(StoreAfter(m, ops[0]), ops[1..]);
    }
  }

  /** Whatever operations run, every value a typed `get` can return is an instance of its type. */
  lemma {:induction false} TypingIsPermanent(m: Slots, ops: seq<Op>)
    requires WellTyped(m)
    ensures WellTyped(RunOps(m, ops))
    decreases |ops|
  {
    if ops != [] {
      OpKeepsKeys(m, ops[0]);
      TypingIsPermanent(StoreAfter(m, ops[0]), ops[1..]);
    }
  }

  // ---------------------------------------------------------------------------------------
  // What the operations promise about each other

  /** A key cannot be defined twice, whatever type and value the second definition uses. */
  lemma DefineTwiceFails(m: Slots, key: Key, t1: PyType, v1: Value, t2: PyType, v2: Value)
    requires Define(m, key, t1, v1).reply.Success?
    ensures Define(Define(m, key, t1, v1).store, key, t2, v2) == Step(Define(m, key, t1, v1).store, Failure(RedefineError))
  {
  }

  /** After `consume`, `get` raises ConsumedError, a second `consume` and a `swap` raise ConsumedError, and the declared type survives. */
  lemma ConsumeRemovesOnlyTheValue(m: Slots, key: Key, typ: PyType, v: Value)
    requires Consume(m, key, typ).reply.Success?
    ensures var after := Consume(m, key, typ).store;
      && key in after && after[key].typ == typ
      && Get(after, key, typ) == Failure(ConsumedError)
      && Consume(after, key, typ).reply == Failure(ConsumedError)
      && Swap(after, key, typ, v).reply == Failure(ConsumedError)
      && IsConsumed(after, key) == Success(true)
  {
  }

  /** `consume` then `set` then `get` returns the value set. */
  lemma ConsumeSetGet(m: Slots, key: Key, typ: PyType, v: Value)
    requires Consume(m, key, typ).reply.Success? && IsInstance(v, typ)
    ensures Get(Set(Consume(m, key, typ).store, key, typ, v).store, key, typ) == Success(v)
  {
  }

  /** `swap` round trip: the reply is what `get` returned before, and `get` afterwards returns the new value. */
  lemma SwapRoundTrip(m: Slots, key: Key, typ: PyType, v: Value)
    requires Get(m, key, typ).Success? && IsInstance(v, typ)
    ensures Swap(m, key, typ, v).reply == Get(m, key, typ)
    ensures Get(Swap(m, key, typ, v).store, key, typ) == Success(v)
  {
  }

  /** For a defined key and a well-typed value, exactly one of `offer` and `ensure` writes; after `offer` the slot always holds a value. */
  lemma OfferEnsureDuality(m: Slots, key: Key, v: Value)
    requires key in m && IsInstance(v, m[key].typ)
    ensures Offer(m, key, v).reply == Success(true) <==> Ensure(m, key, v).reply == Success(false)
    ensures Offer(m, key, v).reply.Success? && Ensure(m, key, v).reply.Success?
    ensures Get(Offer(m, key, v).store, key, m[key].typ).Success?
    ensures Get(Ensure(m, key, v).store, key, m[key].typ).Success? <==> m[key].value.Some?
  {
  }

  /** `consume_and` is `consume` followed by `set`, performed as one step. */
  lemma ConsumeAndIsConsumeThenSet(m: Slots, key: Key, typ: PyType, v: Value)
    requires ConsumeAnd(m, key, typ, v).reply.Success?
    ensures Consume(m, key, typ).reply == ConsumeAnd(m, key, typ, v).reply
    ensures Set(Consume(m, key, typ).store, key, typ, v).store == ConsumeAnd(m, key, typ, v).store
  {
  }

  // ---------------------------------------------------------------------------------------
  // offer / ensure as their contracts are written (no type check on the value)

  /** `offer` exactly as its contract lists it: key check, then write-if-consumed. */
  function OfferAsWritten(m: Slots, key: Key, v: Value): (s: Step<bool>)
    ensures key !in m ==> s.reply == Failure(MessageKeyError)
    ensures s.reply == Success(true) <==> key in m && m[key].value.None?
    ensures s.reply == Success(false) <==> key in m && m[key].value.Some?
    ensures s.reply != Success(true) ==> s.store == m
    ensures s.reply == Success(true) ==> ChangesOnly(m, s.store, key) && Get(s.store, key, m[key].typ) == Success(v)
    ensures KeepsKeys(m, s.store)
  {
    if key !in m then Step(m, Failure(MessageKeyError))
    else if m[key].value.None? then Step(m[key := Slot(m[key].typ, Some(v))], Success(true))
    else Step(m, Success(false))
  }

  /** `ensure` exactly as its contract lists it: key check, then write-if-present. */
  function EnsureAsWritten(m: Slots, key: Key, v: Value): (s: Step<bool>)
    ensures key !in m ==> s.reply == Failure(MessageKeyError)
    ensures s.reply == Success(true) <==> key in m && m[key].value.Some?
    ensures s.reply == Success(false) <==> key in m && m[key].value.None?
    ensures s.reply != Success(true) ==> s.store == m
    ensures s.reply == Success(true) ==> ChangesOnly(m, s.store, key) && Get(s.store, key, m[key].typ) == Success(v)
    ensures KeepsKeys(m, s.store)
  {
    if key !in m then Step(m, Failure(MessageKeyError))
    else if m[key].value.Some? then Step(m[key := Slot(m[key].typ, Some(v))], Success(true))
    else Step(m, Success(false))
  }

  const IntType: PyType := PyType("int", [])
  const StrType: PyType := PyType("str", [])

  /** As written, `offer` lets a `str` into an `int` slot, and a later `get(key, int)` returns that `str`. */
  lemma OfferAsWrittenBreaksTypedGet()
    ensures var m := map[StrKey("limit") := Slot(IntType, None)];
      var bad := Value(StrType, "ten");
      var s := OfferAsWritten(m, StrKey("limit"), bad);
      && WellTyped(m)
      && s.reply == Success(true)
      && Get(s.store, StrKey("limit"), IntType) == Success(bad)
      && !IsInstance(bad, IntType)
      && Offer(m, StrKey("limit"), bad) == Step(m, Failure(MessageTypeError(NotInstance)))
  {
    var m := map[StrKey("limit") := Slot(IntType, None)];
    assert !IsSubclass(StrType, IntType);
    assert !IsSubclass(IntType, NoneType);
    assert WellTyped(m);
  }

  /** As written, `ensure` overwrites an `int` with a `str`, and a later `get(key, int)` returns that `str`. */
  lemma EnsureAsWrittenBreaksTypedGet()
    ensures var m := map[StrKey("limit") := Slot(IntType, Some(Value(IntType, "10")))];
      var bad := Value(StrType, "ten");
      var s := EnsureAsWritten(m, StrKey("limit"), bad);
      && WellTyped(m)
      && s.reply == Success(true)
      && Get(s.store, StrKey("limit"), IntType) == Success(bad)
      && !IsInstance(bad, IntType)
      && Ensure(m, StrKey("limit"), bad) == Step(m, Failure(MessageTypeError(NotInstance)))
  {
    var m := map[StrKey("limit") := Slot(IntType, Some(Value(IntType, "10")))];
    assert !IsSubclass(StrType, IntType);
    assert IsSubclass(IntType, IntType);
    assert !IsSubclass(IntType, NoneType);
    assert WellTyped(m);
  }
}
