/** The channel of `src/spsc.rs` as an object. Every method takes exactly one step of `SpscModel`. */
module Spsc {
  import opened Common
  import opened Wakeups
  import opened SpscModel

  class Shared<T> {
    var tx: Option<TaskId>
    var rx: Option<TaskId>
    var buf: seq<T>
    const unbounded: bool
    const room: nat
    /** The reference count of `BiRc`. */
    var count: int

    ghost var wakes: seq<TaskId>
    ghost var model: Chan<T>
    ghost var states: seq<Chan<T>>
    ghost var actions: seq<Action<T>>

    ghost predicate Valid()
      reads this
    {
      && tx == model.tx && rx == model.rx && buf == model.buf && wakes == model.wakes
      && unbounded == model.unbounded && room == model.room
      && count == (if model.senderAlive then 1 else 0) + (if model.receiverAlive then 1 else 0)
      && Recorded()
    }

    /** The steps that were taken so far are a run of the state machine. */
    ghost predicate Recorded()
      reads this`model, this`states, this`actions
    {
      IsRun(states, actions) && states[|actions|] == model
    }

    /** Exactly this step was taken. */
    twostate predicate Took(new a: Action<T>)
      reads this`model, this`states, this`actions
    {
      && Enabled(old(model), a) && model == Step(old(model), a)
      && states == old(states) + [model] && actions == old(actions) + [a]
    }

    ghost method Take(a: Action<T>)
      requires Recorded() && Enabled(model, a)
      modifies this`model, this`states, this`actions
      ensures Recorded() && Took(a)
    {
      ExtendRun(states, actions, a);
      model := Step(model, a);
      states, actions := states + [model], actions + [a];
    }

    /** `channel` with a capacity, which must not be 0, or `unbounded`. */
    constructor (unbounded: bool, room: nat)
      requires !unbounded ==> room > 0
      ensures Valid() && states == [New(unbounded, room)] && actions == []
      ensures this.unbounded == unbounded && this.room == room && buf == [] && tx == rx == None && count == 2
    {
      tx, rx, buf, count := None, None, [], 2;
      this.unbounded, this.room := unbounded, room;
      wakes, model := [], New(unbounded, room);
      states, actions := [New(unbounded, room)], [];
      new;
      assert states[0] == New(unbounded, room);
    }

    function AtCapacity(): (full: bool)
      requires Valid()
      reads this
      ensures full == model.AtCapacity()
    {
      !unbounded && |buf| == room
    }

    method Wake(waker: Option<TaskId>)
      modifies this`wakes
      ensures wakes == WakeOpt(old(wakes), waker)
    {
      if waker.Some? {
        wakes := wakes + [waker.value];
      }
    }

    lemma Sound()
      requires Recorded()
      ensures Inv(model)
    {
      FifoAlways(states, actions, |actions|);
    }

    method TrySend(value: T) returns (result: SendResult<T>)
      requires Valid() && Enabled(model, SpscModel.TrySend(value))
      modifies this
      ensures Valid() && Took(SpscModel.TrySend(value))
      ensures result == TryResult(old(model), value)
      ensures result.Accepted? <==> old(model).receiverAlive && (unbounded || |old(buf)| < room)
      ensures result.Accepted? ==>
                buf == old(buf) + [value] && model.accepted == old(model).accepted + [value]
                && wakes == WakeOpt(old(wakes), rx)
      ensures !result.Accepted? ==> result == Refused(value) && model == old(model) && buf == old(buf)
      ensures tx == old(tx) && rx == old(rx) && count == old(count)
    {
      Sound();
      TrySendExact(model, value);
      var refuses := count != 2 || AtCapacity();
      Take(SpscModel.TrySend(value));
      if refuses {
        return Refused(value);
      }
      buf := buf + [value];
      Wake(rx);
      result := Accepted;
    }

    /** `Send::poll`; the value leaves the future when the poll is ready. */
    method PollSend(value: T, task: TaskId) returns (result: SendResult<T>)
      requires Valid() && Enabled(model, Action<T>.PollSend(task)) && model.active.value == value
      modifies this
      ensures Valid() && Took(SpscModel.PollSend(task))
      ensures result == PollSendResult(old(model))
      ensures result.Accepted? <==> old(model).receiverAlive && (unbounded || |old(buf)| < room)
      ensures result.SendPending? <==> old(model).receiverAlive && !unbounded && |old(buf)| == room
      ensures result.Accepted? ==>
                buf == old(buf) + [value] && model.accepted == old(model).accepted + [value]
                && wakes == WakeOpt(old(wakes), rx) && tx == old(tx)
      ensures !result.Accepted? ==>
                buf == old(buf) && model.accepted == old(model).accepted && wakes == old(wakes)
      ensures result.Refused? ==> result.value == value && tx == None
      ensures result.SendPending? ==> tx == Some(task)
      ensures rx == old(rx) && count == old(count)
    {
      Sound();
      PollSendExact(model, task);
      var full := AtCapacity();
      Take(SpscModel.PollSend(task));
      if count != 2 {
        tx := None;
        result := Refused(value);
      } else if full {
        if tx != Some(task) {
          tx := Some(task);
        }
        result := SendPending;
      } else {
        buf := buf + [value];
        Wake(rx);
        result := Accepted;
      }
    }

    /** `Recv::poll`. */
    method PollRecv(task: TaskId) returns (result: RecvResult<T>)
      requires Valid() && Enabled(model, Action<T>.PollRecv(task))
      modifies this
      ensures Valid() && Took(SpscModel.PollRecv(task))
      ensures result == PollRecvResult(old(model))
      ensures result.Value? <==> old(buf) != []
      ensures result.Value? ==>
                old(buf) == [result.value] + buf && model.received == old(model).received + [result.value]
      ensures !result.Value? ==> buf == [] && model.received == old(model).received
      ensures result.Closed? <==> old(buf) == [] && !old(model).senderAlive
      ensures wakes == if result.Closed? then old(wakes) else WakeOpt(old(wakes), tx)
      ensures rx == match result case Value(_) => old(rx) case Closed => None case RecvPending => Some(task)
      ensures tx == old(tx) && count == old(count)
    {
      Sound();
      PollRecvExact(model, task);
      Take(SpscModel.PollRecv(task));
      if buf != [] {
        result := Value(buf[0]);
        buf := buf[1..];
        Wake(tx);
      } else if count != 2 {
        rx := None;
        result := Closed;
      } else {
        if rx != Some(task) {
          rx := Some(task);
        }
        Wake(tx);
        result := RecvPending;
      }
    }

    /** `Sender::drop`, then the drop of its reference. */
    method DropSender()
      requires Valid() && Enabled(model, Action<T>.DropSender)
      modifies this
      ensures Valid() && Took(SpscModel.DropSender)
      ensures wakes == WakeOpt(old(wakes), old(rx)) && rx == None && tx == old(tx) && buf == old(buf)
      ensures !model.senderAlive && model.receiverAlive == old(model).receiverAlive && count == old(count) - 1
      ensures model.accepted == old(model).accepted && model.received == old(model).received
    {
      Take(SpscModel.DropSender);
      Wake(rx);
      rx := None;
      count := count - 1;
    }

    /** `Receiver::drop`, then the drop of its reference. */
    method DropReceiver()
      requires Valid() && Enabled(model, Action<T>.DropReceiver)
      modifies this
      ensures Valid() && Took(SpscModel.DropReceiver)
      ensures wakes == WakeOpt(old(wakes), old(tx)) && tx == None && rx == old(rx) && buf == old(buf)
      ensures !model.receiverAlive && model.senderAlive == old(model).senderAlive && count == old(count) - 1
      ensures model.accepted == old(model).accepted && model.received == old(model).received
    {
      Take(SpscModel.DropReceiver);
      Wake(tx);
      tx := None;
      count := count - 1;
    }

    /** Creating a `send` future, and dropping a `send` or `recv` future before it
        completed, only concern the future itself. */
    ghost method StartSend(value: T)
      requires Valid() && Enabled(model, SpscModel.StartSend(value))
      modifies this`model, this`states, this`actions
      ensures Valid() && Took(SpscModel.StartSend(value))
      ensures model.active == Sending(value, None)
    {
      Take(SpscModel.StartSend(value));
    }

    ghost method CancelRecv()
      requires Valid() && Enabled(model, Action<T>.CancelRecv)
      modifies this`model, this`states, this`actions
      ensures Valid() && Took(SpscModel.CancelRecv)
      ensures model.received == old(model).received
    {
      Take(SpscModel.CancelRecv);
    }

    ghost method CancelSend()
      requires Valid() && Enabled(model, Action<T>.CancelSend)
      modifies this`model, this`states, this`actions
      ensures Valid() && Took(SpscModel.CancelSend)
      ensures model.active.Idle? && model.accepted == old(model).accepted
    {
      Take(SpscModel.CancelSend);
    }
  }
}
