/**
 * A message channel as the runtime holds it: one shared store updated in place.  Each public
 * method is one atomic step under the channel's lock; a batch holds the lock across several
 * BatchOperator calls.  Every method is specified by the matching function of MessageModel,
 * and keeps the channel well typed.
 */
module MessageChannel {
  import opened Wrappers
  import opened MessageModel

  class Channel {
    var slots: Slots

    ghost predicate Valid()
      reads this
    {
      WellTyped(slots)
    }

    constructor ()
      ensures Valid() && slots == map[]
    {
      slots := map[];
    }

    /** `MessageReader.get`: a successful read is an instance of the requested type. */
    method Get(key: Key, typ: PyType) returns (r: Result<Value, MessageError>)
      requires Valid()
      ensures r == MessageModel.Get(slots, key, typ)
      ensures r.Success? ==> IsInstance(r.value, typ)
    {
      r := MessageModel.Get(slots, key, typ);
    }

    /** `MessageUpdater.set`. */
    method Set(key: Key, typ: PyType, v: Value) returns (r: Result<(), MessageError>)
      requires Valid()
      modifies this
      ensures Valid()
      ensures slots == MessageModel.Set(old(slots), key, typ, v).store
      ensures r == MessageModel.Set(old(slots), key, typ, v).reply
    {
      var s := MessageModel.Set(slots, key, typ, v);
      slots, r := s.store, s.reply;
    }

    /** `MessageUpdater.swap`. */
    method Swap(key: Key, typ: PyType, v: Value) returns (r: Result<Value, MessageError>)
      requires Valid()
      modifies this
      ensures Valid()
      ensures slots == MessageModel.Swap(old(slots), key, typ, v).store
      ensures r == MessageModel.Swap(old(slots), key, typ, v).reply
      ensures r.Success? ==> old(slots)[key].value == Some(r.value) && slots[key].value == Some(v)
    {
      var s := MessageModel.Swap(slots, key, typ, v);
      slots, r := s.store, s.reply;
    }

    /** `MessageUpdater.apply`. */
    method Apply(key: Key, typ: PyType, fn: Value -> Value) returns (r: Result<Value, MessageError>)
      requires Valid()
      modifies this
      ensures Valid()
      ensures slots == MessageModel.Apply(old(slots), key, typ, fn).store
      ensures r == MessageModel.Apply(old(slots), key, typ, fn).reply
    {
      var s := MessageModel.Apply(slots, key, typ, fn);
      slots, r := s.store, s.reply;
    }

    /** `MessageUpdater.offer`. */
    method Offer(key: Key, v: Value) returns (r: Result<bool, MessageError>)
      requires Valid()
      modifies this
      ensures Valid()
      ensures slots == MessageModel.Offer(old(slots), key, v).store
      ensures r == MessageModel.Offer(old(slots), key, v).reply
    {
      var s := MessageModel.Offer(slots, key, v);
      slots, r := s.store, s.reply;
    }

    /** `MessageUpdater.ensure`. */
    method Ensure(key: Key, v: Value) returns (r: Result<bool, MessageError>)
      requires Valid()
      modifies this
      ensures Valid()
      ensures slots == MessageModel.Ensure(old(slots), key, v).store
      ensures r == MessageModel.Ensure(old(slots), key, v).reply
    {
      var s := MessageModel.Ensure(slots, key, v);
      slots, r := s.store, s.reply;
    }

    /** `MessageUpdater.consume`. */
    method Consume(key: Key, typ: PyType) returns (r: Result<Value, MessageError>)
      requires Valid()
      modifies this
      ensures Valid()
      ensures slots == MessageModel.Consume(old(slots), key, typ).store
      ensures r == MessageModel.Consume(old(slots), key, typ).reply
      ensures slots.Keys == old(slots.Keys)
    {
      var s := MessageModel.Consume(slots, key, typ);
      slots, r := s.store, s.reply;
    }

    /** `MessageUpdater.consume_and`. */
    method ConsumeAnd(key: Key, typ: PyType, v: Value) returns (r: Result<Value, MessageError>)
      requires Valid()
      modifies this
      ensures Valid()
      ensures slots == MessageModel.ConsumeAnd(old(slots), key, typ, v).store
      ensures r == MessageModel.ConsumeAnd(old(slots), key, typ, v).reply
    {
      var s := MessageModel.ConsumeAnd(slots, key, typ, v);
      slots, r := s.store, s.reply;
    }

    /** `MessageDefiner.define`. */
    method Define(key: Key, typ: PyType, v: Value) returns (r: Result<(), MessageError>)
      requires Valid()
      modifies this
      ensures Valid()
      ensures slots == MessageModel.Define(old(slots), key, typ, v).store
      ensures r == MessageModel.Define(old(slots), key, typ, v).reply
    {
      var s := MessageModel.Define(slots, key, typ, v);
      slots, r := s.store, s.reply;
    }

    /**
     * `MessageUpdater.batch`: the calls of one `with` block run in order on one operator; the
     * first call that raises ends the block and the changes made before it stay.
     */
    method Batch(ops: seq<BatchOp>) returns (replies: seq<Result<BatchReply, MessageError>>)
      requires Valid()
      modifies this
      ensures Valid()
      ensures slots == RunBatch(old(slots), ops).store
      ensures replies == RunBatch(old(slots), ops).replies
    {
      var op := new BatchOperator(this);
      ghost var start := slots;
      replies := [];
      var i := 0;
      while i < |ops|
        invariant 0 <= i <= |ops|
        invariant Valid() && op.channel == this
        invariant RunBatch(start, ops) == BatchRun(RunBatch(slots, ops[i..]).store, replies + RunBatch(slots, ops[i..]).replies)
      {
        ghost var before := slots;
        assert ops[i..][0] == ops[i] && ops[i..][1..] == ops[i + 1..];
        RunBatchFirst(before, ops[i..]);
        var r := op.Perform(ops[i]);
        if r.Failure? {
          replies := replies + [r];
          return;
        }
        replies := replies + [r];
        i := i + 1;
      }
    }
  }

  /** The operator handed out by `batch()`: accessors on existing keys, run while the lock is held. */
  class BatchOperator {
    const channel: Channel

    constructor (channel: Channel)
      ensures this.channel == channel
    {
      this.channel := channel;
    }

    /** `BatchOperator.exists_key`. */
    method ExistsKey(key: Key) returns (b: bool)
      ensures b <==> key in channel.slots
    {
      b := MessageModel.ExistsKey(channel.slots, key);
    }

    /** `BatchOperator.get_value`. */
    method GetValue(key: Key, typ: PyType) returns (r: Result<Value, MessageError>)
      ensures r == MessageModel.GetValue(channel.slots, key, typ)
    {
      r := MessageModel.GetValue(channel.slots, key, typ);
    }

    /** `BatchOperator.consumed`. */
    method Consumed(key: Key) returns (r: Result<bool, MessageError>)
      ensures r == MessageModel.IsConsumed(channel.slots, key)
    {
      r := MessageModel.IsConsumed(channel.slots, key);
    }

    /** `BatchOperator.set_value`. */
    method SetValue(key: Key, v: Value) returns (r: Result<(), MessageError>)
      requires channel.Valid()
      modifies channel
      ensures channel.Valid()
      ensures channel.slots == MessageModel.SetValue(old(channel.slots), key, v).store
      ensures r == MessageModel.SetValue(old(channel.slots), key, v).reply
    {
      var s := MessageModel.SetValue(channel.slots, key, v);
      channel.slots, r := s.store, s.reply;
    }

    /** `BatchOperator.consume_value`. */
    method ConsumeValue(key: Key, typ: PyType) returns (r: Result<Value, MessageError>)
      requires channel.Valid()
      modifies channel
      ensures channel.Valid()
      ensures channel.slots == MessageModel.Consume(old(channel.slots), key, typ).store
      ensures r == MessageModel.Consume(old(channel.slots), key, typ).reply
    {
      var s := MessageModel.Consume(channel.slots, key, typ);
      channel.slots, r := s.store, s.reply;
    }

    /** One call of a batch block, dispatched to the accessor it names. */
    method Perform(op: BatchOp) returns (r: Result<BatchReply, MessageError>)
      requires channel.Valid()
      modifies channel
      ensures channel.Valid()
      ensures channel.slots == BatchStep(old(channel.slots), op).store
      ensures r == BatchStep(old(channel.slots), op).reply
    {
      match op
      case ExistsKeyOp(key) =>
        var b := ExistsKey(key);
        r := Success(KeyExists(b));
      case GetValueOp(key, typ) =>
        var g := GetValue(key, typ);
        r := if g.Success? then Success(GotValue(g.value)) else Failure(g.error);
      case ConsumedOp(key) =>
        var c := Consumed(key);
        r := if c.Success? then Success(WasConsumed(c.value)) else Failure(c.error);
      case SetValueOp(key, v) =>
        var s := SetValue(key, v);
        r := if s.Success? then Success(ValueSet) else Failure(s.error);
      case ConsumeValueOp(key, typ) =>
        var c := ConsumeValue(key, typ);
        r := if c.Success? then Success(ValueConsumed(c.value)) else Failure(c.error);
    }
  }
}
