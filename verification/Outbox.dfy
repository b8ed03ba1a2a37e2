/** The outbox as the program stores it: four parallel arrays over shared JSON objects. */
module Outbox {
  import opened Bits
  import opened Ids
  import opened Documents
  import opened Engine
  import opened Memory

  lemma RemoveAtEach(es: seq<Entry>, index: nat)
    requires index < |es|
    ensures forall i :: 0 <= i < index ==> RemoveAt(es, index)[i] == es[i]
    ensures forall i :: index <= i < |es| - 1 ==> RemoveAt(es, index)[i] == es[i + 1]
  {
  }

  class MsgQueue {
    var msgs: array<JsonObject?>
    var batchIds: array<Word>
    var msgIds: array<Word>
    var funcs: array<Handler>
    var capacity: nat
    var count: nat

    /** The records that the arrays stand for. */
    ghost var entries: seq<Entry>
    ghost var Repr: set<object>

    ghost predicate Valid()
      reads this, Repr
      ensures Valid() ==> this in Repr
    {
      && this in Repr && msgs in Repr && batchIds in Repr && msgIds in Repr && funcs in Repr
      && batchIds != msgIds
      && msgs.Length == batchIds.Length == msgIds.Length == funcs.Length == capacity
      && count == |entries| <= capacity
      && (forall i :: 0 <= i < count ==>
            && msgs[i] != null && msgs[i] in Repr
            && entries[i].doc == msgs[i].fields
            && entries[i].batchId == batchIds[i]
            && entries[i].msgId == msgIds[i]
            && entries[i].handler == funcs[i])
      && (forall i, j :: 0 <= i < j < count ==> msgs[i] != msgs[j])
    }

    /** Nobody but the queue holds on to its messages, and the queue holds each of them once. */
    ghost predicate HeldOnce()
      requires Valid()
      reads this, Repr
    {
      forall i :: 0 <= i < count ==> msgs[i].refs == 1
    }

    /** `msg_queue_create`. */
    constructor ()
      ensures Valid() && fresh(Repr) && HeldOnce()
      ensures entries == [] && capacity == 64
    {
      capacity := 64;
      count := 0;
      msgs := new JsonObject?[64];
      batchIds := new Word[64];
      msgIds := new Word[64];
      funcs := new Handler[64];
      entries := [];
      new;
      Repr := {this, msgs, batchIds, msgIds, funcs};
    }

    /** Makes room for one more entry. */
    method Grow()
      requires Valid()
      modifies this
      ensures Valid() && fresh(Repr - old(Repr)) && old(Repr) <= Repr
      ensures count == old(count) < capacity && entries == old(entries)
      ensures capacity == if old(count) < old(capacity) then old(capacity) else old(count) + 64
      ensures forall i :: 0 <= i < count ==> msgs[i] == old(msgs[i])
    {
      if count >= capacity {
        capacity := count + 64;
        msgs := Realloc(msgs, capacity);
        batchIds := Realloc(batchIds, capacity);
        msgIds := Realloc(msgIds, capacity);
        funcs := Realloc(funcs, capacity);
        Repr := Repr + {msgs, batchIds, msgIds, funcs};
      }
    }

    /** `msg_queue_push`: the queue takes a reference of its own. */
    method Push(msg: JsonObject, func: Handler, ghost serial: nat) returns (idx: nat)
      requires Valid() && msg !in Repr
      modifies Repr, msg`refs
      ensures Valid() && Repr >= old(Repr) + {msg} && fresh(Repr - old(Repr) - {msg})
      ensures idx == |old(entries)|
      ensures entries == old(entries) + [NewEntry(msg.fields, func, serial)]
      ensures msg.refs == old(msg.refs) + 1 && msgs[idx] == msg
      ensures forall i :: 0 <= i < idx ==> msgs[i] == old(msgs[i]) && msgs[i].refs == old(msgs[i].refs)
    {
      Grow();
      msg.Get();
      idx := count;
      Append(msg, func, serial);
    }

    /** How every message enters the queue: it is made, pushed, and its maker's reference given up. */
    method PushNew(doc: Doc, func: Handler, ghost serial: nat) returns (idx: nat)
      requires Valid() && HeldOnce()
      modifies Repr
      ensures Valid() && HeldOnce() && fresh(Repr - old(Repr)) && old(Repr) <= Repr
      ensures idx == |old(entries)|
      ensures entries == old(entries) + [NewEntry(doc, func, serial)]
    {
      var msg := new JsonObject(doc);
      idx := Push(msg, func, serial);
      assert forall i :: 0 <= i < idx ==> msgs[i] != msg && msgs[i].refs == 1;
      msg.Put();
    }

    method Append(msg: JsonObject, func: Handler, ghost serial: nat)
      requires Valid() && msg !in Repr && count < capacity
      modifies this, msgs, batchIds, msgIds, funcs
      ensures Valid() && Repr == old(Repr) + {msg}
      ensures count == old(count) + 1
      ensures entries == old(entries) + [NewEntry(msg.fields, func, serial)]
      ensures msgs == old(msgs) && msgs[old(count)] == msg
      ensures forall i :: 0 <= i < old(count) ==> msgs[i] == old(msgs[i])
    {
      var idx := count;
      msgs[idx] := msg;
      batchIds[idx] := INVALID_ID;
      msgIds[idx] := INVALID_ID;
      funcs[idx] := func;
      count := idx + 1;
      entries := entries + [NewEntry(msg.fields, func, serial)];
      Repr := Repr + {msg};
    }

    /** `msg_queue_remove_ordered`: the queue's reference is given up. */
    method RemoveOrdered(index: nat)
      requires Valid() && HeldOnce() && index < count
      modifies Repr
      ensures Valid() && HeldOnce() && Repr == old(Repr)
      ensures entries == RemoveAt(old(entries), index)
      ensures old(msgs[index]).refs == 0
      ensures forall i :: 0 <= i < count ==> msgs[i] != old(msgs[index])
    {
      var msg := msgs[index];
      msg.Put();
      CloseGap(index);
    }

    /** The moves of `msg_queue_remove_ordered`. */
    method CloseGap(index: nat)
      requires Valid() && index < count
      modifies this, msgs, batchIds, msgIds, funcs
      ensures Valid() && Repr == old(Repr)
      ensures entries == RemoveAt(old(entries), index)
      ensures msgs == old(msgs) && count == old(count) - 1
      ensures forall i :: 0 <= i < index ==> msgs[i] == old(msgs[i])
      ensures forall i :: index <= i < count ==> msgs[i] == old(msgs[i + 1])
    {
      var moveCount := count - index - 1;
      if index < count - 1 {
        MoveDown(msgs, index, moveCount);
        MoveDown(batchIds, index, moveCount);
        MoveDown(msgIds, index, moveCount);
        MoveDown(funcs, index, moveCount);
      }
      count := count - 1;
      entries := RemoveAt(entries, index);
      RemoveAtEach(old(entries), index);
    }

    /** `msg_queue_find_by_msg_id`. */
    method FindByMsgId(id: Word) returns (index: int)
      requires Valid()
      ensures index == Find(entries, id)
    {
      for i := 0 to count
        invariant forall j :: 0 <= j < i ==> entries[j].msgId != id
      {
        if id == msgIds[i] {
          return i;
        }
      }
      return -1;
    }

    /** The updates with which both flushes put a message in flight: its id and the client's in the
        JSON object, and both ids in their arrays. */
    method Label(index: nat, msgId: Word, batchId: Word, clientId: Option<string>,
                 ghost msgTick: nat, ghost batchTick: nat)
      requires Valid() && HeldOnce() && index < count
      requires msgId == IdAt(msgTick) && batchId == IdAt(batchTick)
      modifies Repr
      ensures Valid() && HeldOnce() && Repr == old(Repr)
      ensures entries == old(entries)[index := Stamp(old(entries)[index], msgTick, batchTick, clientId)]
    {
      var msg := msgs[index];
      var idText := HexText(msgId);
      if |idText| > 8 {
        idText := idText[..8];
      }
      msg.SetString("id", idText);
      msgIds[index] := msgId;
      if clientId.Some? {
        msg.SetString("clientId", clientId.value);
      }
      batchIds[index] := batchId;
      entries := entries[index := Stamp(entries[index], msgTick, batchTick, clientId)];
    }

    /** The loop of `on_batch_send_err`. */
    method ClearBatch(batchId: Word)
      requires Valid() && HeldOnce()
      modifies Repr
      ensures Valid() && HeldOnce() && Repr == old(Repr)
      ensures |entries| == |old(entries)|
      ensures forall i :: 0 <= i < |entries| ==> entries[i] == Unassign(old(entries)[i], batchId)
    {
      ghost var was := entries;
      for i := 0 to count
        invariant Valid() && HeldOnce() && Repr == old(Repr) && count == |was|
        invariant forall j :: 0 <= j < i ==> entries[j] == Unassign(was[j], batchId)
        invariant forall j :: i <= j < count ==> entries[j] == was[j]
      {
        if batchIds[i] == batchId {
          batchIds[i] := INVALID_ID;
          msgIds[i] := INVALID_ID;
          entries := entries[i := Unassign(entries[i], batchId)];
        }
      }
    }
  }
}
