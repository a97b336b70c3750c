/** adapters/sink.py: board items, and the in-process deduplication of creates. */
module Sink {
  import opened Wrappers
  import opened Schema

  datatype SinkError = SinkError

  datatype Group = Ready | NoMatchGroup | Attention

  // What one create_item request carries; `receivingId` is not sent and is kept for reasoning.
  datatype BoardItem = BoardItem(
    receivingId: string, group: Group, purchaseOrder: string, inventoryId: string, modelNumber: string,
    serial: string, statusLabel: string)

  // A request is acknowledged, fails before the board acts, or succeeds on the board with its
  // answer lost (timeout, unreadable body).
  datatype Reply = Delivered | Refused | AnswerLost

  function ItemFor(r: Record): BoardItem {
    if r.matchStatus == "received"
    then BoardItem(r.receivingId, Ready, r.purchaseOrder, r.inventoryId, r.modelNumber, r.serial, "READY")
    else BoardItem(r.receivingId, NoMatchGroup, r.purchaseOrder, r.inventoryId, r.modelNumber, r.serial, "NO MATCH")
  }

  function AttentionFor(r: Record): BoardItem {
    BoardItem(r.receivingId, Attention, r.purchaseOrder, r.inventoryId, r.modelNumber, r.serial, "NEEDS ATTENTION")
  }

  // The item a record is surfaced as by the sync loop and by process_scan.
  function SurfacedAs(r: Record): BoardItem {
    if r.matchStatus == "needs_attention" then AttentionFor(r) else ItemFor(r)
  }

  predicate OnBoard(board: seq<BoardItem>, rid: string) {
    exists k :: 0 <= k < |board| && board[k].receivingId == rid
  }

  class ResultSink {
    var seen: set<string>
    var board: seq<BoardItem>
    // `reply(k)` is what the k-th request meets.
    const reply: nat -> Reply
    var requests: nat

    constructor (reply: nat -> Reply)
      ensures seen == {} && board == [] && requests == 0 && this.reply == reply
    {
      seen, board, requests := {}, [], 0;
      this.reply := reply;
    }

    method CreateItem(item: BoardItem) returns (r: Result<(), SinkError>)
      modifies this`board, this`requests
      ensures requests == old(requests) + 1
      ensures r.Ok? <==> reply(old(requests)).Delivered?
      ensures board == if reply(old(requests)).Refused? then old(board) else old(board) + [item]
    {
      requests := requests + 1;
      if !reply(requests - 1).Refused? {
        board := board + [item];
      }
      return if reply(requests - 1).Delivered? then Ok(()) else Err(SinkError);
    }

    method Emit(record: Record) returns (r: Result<(), SinkError>)
      modifies this`seen, this`board, this`requests
      ensures Surfaced(old(seen), old(board), old(requests), ItemFor(record), seen, board, requests, r)
      ensures record.receivingId in old(seen) ==> r.Ok? && board == old(board) && seen == old(seen)
      ensures record.receivingId !in old(seen) && reply(old(requests)).Refused? ==>
                r.Err? && board == old(board) && seen == old(seen)
      ensures record.receivingId !in old(seen) && reply(old(requests)).AnswerLost? ==> r.Err? && seen == old(seen)
      ensures record.receivingId !in old(seen) && reply(old(requests)).Delivered? ==>
                r.Ok? && seen == old(seen) + {record.receivingId}
      ensures record.receivingId !in old(seen) && !reply(old(requests)).Refused? ==>
                |board| == |old(board)| + 1 && board[..|old(board)|] == old(board)
                && var item := board[|old(board)|];
                   && (record.matchStatus == "received" ==> item.group.Ready? && item.statusLabel == "READY")
                   && (record.matchStatus != "received" ==> item.group.NoMatchGroup? && item.statusLabel == "NO MATCH")
                   && item.receivingId == record.receivingId && item.purchaseOrder == record.purchaseOrder
                   && item.inventoryId == record.inventoryId && item.modelNumber == record.modelNumber
                   && item.serial == record.serial
    {
      if record.receivingId in seen {
        return Ok(());
      }
      if record.matchStatus == "received" {
        r := CreateItem(BoardItem(record.receivingId, Ready, record.purchaseOrder, record.inventoryId,
                                  record.modelNumber, record.serial, "READY"));
      } else {
        r := CreateItem(BoardItem(record.receivingId, NoMatchGroup, record.purchaseOrder, record.inventoryId,
                                  record.modelNumber, record.serial, "NO MATCH"));
      }
      if r.Ok? {
        seen := seen + {record.receivingId};
      }
    }

    method SurfaceAttention(record: Record) returns (r: Result<(), SinkError>)
      modifies this`seen, this`board, this`requests
      ensures Surfaced(old(seen), old(board), old(requests), AttentionFor(record), seen, board, requests, r)
      ensures record.receivingId in old(seen) ==> r.Ok? && board == old(board) && seen == old(seen)
      ensures record.receivingId !in old(seen) && reply(old(requests)).Refused? ==>
                r.Err? && board == old(board) && seen == old(seen)
      ensures record.receivingId !in old(seen) && reply(old(requests)).AnswerLost? ==> r.Err? && seen == old(seen)
      ensures record.receivingId !in old(seen) && reply(old(requests)).Delivered? ==>
                r.Ok? && seen == old(seen) + {record.receivingId}
      ensures record.receivingId !in old(seen) && !reply(old(requests)).Refused? ==>
                |board| == |old(board)| + 1 && board[..|old(board)|] == old(board)
                && var item := board[|old(board)|];
                   && item.group.Attention? && item.statusLabel == "NEEDS ATTENTION"
                   && item.receivingId == record.receivingId && item.purchaseOrder == record.purchaseOrder
                   && item.inventoryId == record.inventoryId && item.modelNumber == record.modelNumber
                   && item.serial == record.serial
    {
      if record.receivingId in seen {
        return Ok(());
      }
      r := CreateItem(AttentionFor(record));
      if r.Ok? {
        seen := seen + {record.receivingId};
      }
    }

    // A create is attempted only for an id this process has not seen, and an id becomes seen only
    // by an acknowledged create.
    ghost predicate Surfaced(seen0: set<string>, board0: seq<BoardItem>, requests0: nat, item: BoardItem,
                             seen1: set<string>, board1: seq<BoardItem>, requests1: nat,
                             r: Result<(), SinkError>)
    {
      if item.receivingId in seen0 then
        seen1 == seen0 && board1 == board0 && requests1 == requests0 && r.Ok?
      else
        && requests1 == requests0 + 1
        && (r.Ok? <==> reply(requests0).Delivered?)
        && seen1 == (if r.Ok? then seen0 + {item.receivingId} else seen0)
        && board1 == if reply(requests0).Refused? then board0 else board0 + [item]
    }
  }
}
