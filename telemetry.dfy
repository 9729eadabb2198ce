/**
 * The telemetry buffer: a bounded FIFO of gameplay events that drops its oldest
 * 100 events on overflow, and a flush that snapshots the buffer, writes it out
 * (the write is an input: it succeeds or fails) and on success removes what it wrote.
 * The flush is split into the step before the write and the step after it, so
 * events can be recorded while a write is in flight.
 */
module Telemetry {
  import opened Wrappers

  datatype Action = Spin | CutWire
  datatype Outcome = Hit | SafeOutcome | EliminatedOutcome | WinnerOutcome | OddsChange

  /**
   * One gameplay event; the timestamp is an input like every clock reading.
   * `playerId` is absent when the player has neither a persistent nor a session
   * id; `targetId` is the cut wire's id (the source stores its decimal string).
   */
  datatype Event = Event(
    timestamp: string,
    roomId: string,
    playerId: Option<string>,
    nickname: string,
    roundPhase: string,
    action: Action,
    targetId: Option<int>,
    reactionTimeMs: int,
    outcome: Outcome)

  const MaxBufferSize: nat := 1000
  /** `Math.floor(MAX_BUFFER_SIZE * 0.1)`. */
  const DropCount: nat := 100

  /** The buffer after `recordEvent`: push, then drop the oldest 100 if it grew past 1000. */
  function Recorded(buffer: seq<Event>, e: Event): (r: seq<Event>)
    ensures |r| > 0 && r[|r| - 1] == e
    ensures |buffer| < MaxBufferSize ==> r == buffer + [e]
    ensures |buffer| == MaxBufferSize ==> r == buffer[DropCount..] + [e]
    ensures |buffer| <= MaxBufferSize ==> |r| <= MaxBufferSize
  {
    var pushed := buffer + [e];
    if |pushed| > MaxBufferSize then pushed[DropCount..] else pushed
  }

  /** How many events that push dropped. */
  function DroppedBy(buffer: seq<Event>): nat
  {
    if |buffer| + 1 > MaxBufferSize then DropCount else 0
  }

  /** Recording keeps a suffix of the old buffer followed by the new event, in order. */
  lemma RecordedKeepsSuffix(buffer: seq<Event>, e: Event)
    ensures Recorded(buffer, e) == (buffer + [e])[DroppedBy(buffer)..]
  {
  }

  /**
   * A run of recordings from one buffer: the buffer is always the tail of
   * everything pushed, after exactly the dropped count; the count grows by 100
   * per overflow; and a buffer that starts within the bound stays within it.
   */
  function RecordAll(buffer: seq<Event>, es: seq<Event>): (r: (seq<Event>, nat))
    ensures r.1 <= |buffer + es| && r.0 == (buffer + es)[r.1..]
    ensures |buffer| <= MaxBufferSize ==> |r.0| <= MaxBufferSize
    decreases |es|
  {
    if es == [] then (buffer, 0)
    else
      var (b, dropped) := RecordAll(buffer, es[..|es| - 1]);
      var e := es[|es| - 1];
      assert buffer + es == buffer + es[..|es| - 1] + [e];
      (Recorded(b, e), dropped + DroppedBy(b))
  }

  // ------------------------------------------------------------ the commit step

  /** The buffer after a successful write, as written: `buffer.splice(0, pendingCount)`. */
  function CommitAsWritten(buffer: seq<Event>, pendingCount: nat): seq<Event>
  {
    if pendingCount <= |buffer| then buffer[pendingCount..] else []
  }

  /**
   * The buffer after a successful write, corrected: of the `pendingCount` written
   * events, the ones the overflow already dropped during the write are not
   * removed a second time.
   */
  function Commit(buffer: seq<Event>, pendingCount: nat, droppedDuringFlush: nat): seq<Event>
  {
    var stillBuffered := if droppedDuringFlush < pendingCount then pendingCount - droppedDuringFlush else 0;
    if stillBuffered <= |buffer| then buffer[stillBuffered..] else []
  }

  /**
   * As written, an event recorded while a write is in flight can be lost without
   * ever being written: a full buffer of 1000 is snapshotted, one more event is
   * recorded (the overflow drops 100, leaving 901 including the new one), the
   * write succeeds, and `splice(0, 1000)` empties the buffer.
   */
  lemma CommitAsWrittenLosesEvent(snapshot: seq<Event>, e: Event)
    requires |snapshot| == MaxBufferSize && e !in snapshot
    ensures var during := Recorded(snapshot, e);
      && |during| == MaxBufferSize - DropCount + 1
      && e in during
      && CommitAsWritten(during, |snapshot|) == []
  {
  }

  /**
   * Corrected: whatever is recorded during the write, a successful commit removes
   * exactly the written events still in the buffer, and keeps every event that
   * arrived during the write and was not dropped by an overflow.
   */
  lemma {:induction false} CommitKeepsUnwritten(snapshot: seq<Event>, arrived: seq<Event>)
    ensures var (during, dropped) := RecordAll(snapshot, arrived);
      var kept := Commit(during, |snapshot|, dropped);
      && (dropped <= |snapshot| ==> kept == arrived)
      && (dropped > |snapshot| ==> kept == arrived[dropped - |snapshot|..])
  {
    var (during, dropped) := RecordAll(snapshot, arrived);
    var all := snapshot + arrived;
    assert during == all[dropped..];
    if dropped <= |snapshot| {
      assert during[|snapshot| - dropped..] == all[|snapshot|..];
      assert all[|snapshot|..] == arrived;
    } else {
      assert all[dropped..] == arrived[dropped - |snapshot|..];
    }
  }

  /** With no overflow during the write, the corrected commit and the written one agree. */
  lemma CommitAgreesWithoutOverflow(buffer: seq<Event>, pendingCount: nat)
    ensures Commit(buffer, pendingCount, 0) == CommitAsWritten(buffer, pendingCount)
  {
  }

  // ------------------------------------------------------------ the service

  class TelemetryService {
    var buffer: seq<Event>
    var isFlushing: bool
    /** The in-flight flush's snapshot size and data (locals of `flush` in the source). */
    var pendingCount: nat
    var pendingData: seq<Event>
    /** Events the overflow dropped since the snapshot was taken. */
    var droppedDuringFlush: nat
    /** Every event recorded since the snapshot was taken. */
    ghost var arrived: seq<Event>

    /**
     * The buffer stays within 1000 events; while a write is in flight it is the
     * tail of the snapshot followed by what arrived, after the dropped prefix.
     */
    ghost predicate Valid()
      reads this
    {
      && |buffer| <= MaxBufferSize
      && (isFlushing ==>
            && pendingCount == |pendingData|
            && droppedDuringFlush <= |pendingData + arrived|
            && buffer == (pendingData + arrived)[droppedDuringFlush..])
    }

    constructor ()
      ensures Valid() && buffer == [] && !isFlushing
    {
      buffer := [];
      isFlushing := false;
      pendingCount := 0;
      pendingData := [];
      droppedDuringFlush := 0;
      arrived := [];
    }

    /** `recordEvent`: append, dropping the oldest 100 when the buffer passes 1000. */
    method RecordEvent(e: Event)
      requires Valid()
      modifies this
      ensures Valid()
      ensures buffer == Recorded(old(buffer), e)
      ensures isFlushing == old(isFlushing) && pendingCount == old(pendingCount) && pendingData == old(pendingData)
    {
      ghost var all := pendingData + arrived;
      buffer := buffer + [e];
      arrived := arrived + [e];
      assert pendingData + arrived == all + [e];
      if |buffer| > MaxBufferSize {
        buffer := buffer[DropCount..];
        if isFlushing {
          droppedDuringFlush := droppedDuringFlush + DropCount;
        }
      }
    }

    /**
     * The first half of `flush`: nothing when the buffer is empty or a flush is
     * in flight; otherwise mark the flush in flight and snapshot the buffer.
     * Returns whether a write was started.
     */
    method BeginFlush() returns (started: bool)
      requires Valid()
      modifies this
      ensures Valid()
      ensures started <==> old(|buffer|) > 0 && !old(isFlushing)
      ensures !started ==>
        buffer == old(buffer) && isFlushing == old(isFlushing) &&
        pendingCount == old(pendingCount) && pendingData == old(pendingData)
      ensures started ==> isFlushing && pendingCount == |buffer| && pendingData == buffer && buffer == old(buffer)
    {
      if |buffer| == 0 || isFlushing {
        return false;
      }
      isFlushing := true;
      pendingCount := |buffer|;
      pendingData := buffer[0..pendingCount];
      droppedDuringFlush := 0;
      arrived := [];
      assert pendingData + arrived == buffer;
      return true;
    }

    /**
     * The second half of `flush` as written: on success `splice(0, pendingCount)`;
     * on failure the buffer stays for the next attempt; either way the flush ends.
     */
    method EndFlushAsWritten(success: bool)
      requires Valid() && isFlushing
      modifies this
      ensures Valid()
      ensures !isFlushing
      ensures buffer == if success then CommitAsWritten(old(buffer), old(pendingCount)) else old(buffer)
    {
      if success {
        buffer := CommitAsWritten(buffer, pendingCount);
      }
      isFlushing := false;
    }

    /**
     * The second half of `flush`, corrected: on success exactly the written events
     * still buffered are removed, so every event recorded during the write and not
     * dropped by an overflow is still buffered afterwards, in order.
     */
    method EndFlush(success: bool)
      requires Valid() && isFlushing
      modifies this
      ensures Valid()
      ensures !isFlushing
      ensures !success ==> buffer == old(buffer)
      ensures success && old(droppedDuringFlush) <= old(pendingCount) ==> buffer == old(arrived)
      ensures success && old(droppedDuringFlush) > old(pendingCount) ==>
        buffer == old(arrived)[old(droppedDuringFlush) - old(pendingCount)..]
    {
      if success {
        ghost var all := pendingData + arrived;
        buffer := Commit(buffer, pendingCount, droppedDuringFlush);
        if droppedDuringFlush <= |pendingData| {
          assert all[droppedDuringFlush..][|pendingData| - droppedDuringFlush..] == all[|pendingData|..];
          assert all[|pendingData|..] == arrived;
        } else {
          assert all[droppedDuringFlush..] == arrived[droppedDuringFlush - |pendingData|..];
        }
      }
      isFlushing := false;
    }
  }
}
