/** Frames that reach a Codex turn before its start has been acknowledged. They are kept in
    order, and replayed ahead of everything that comes later. */
module Frames {
  import opened Utf8

  const MAX_FRAMES: nat := 64
  const MAX_FRAME_BYTES: nat := 1024 * 1024

  /** What a frame carries beside its addresses: a copy of the user's own message or something
      else, with its size. */
  datatype Body = UserItem(size: nat) | Stripped | Content(id: nat, size: nat)

  datatype Kind = Started | Completed | Ordinary

  /** A reply has no method. A notification may name its thread and its turn. */
  datatype Message =
    | Reply(request: nat, turn: Option<nat>, failed: bool)
    | Notification(thread: Option<nat>, turn: Option<nat>, kind: Kind, body: Body)

  function SizeOf(message: Message): nat {
    if message.Notification? then
      match message.body
      case UserItem(size) => size
      case Stripped => 128
      case Content(_, size) => size
    else 0
  }

  function Bytes(messages: seq<Message>): nat {
    if messages == [] then 0 else Bytes(messages[..|messages| - 1]) + SizeOf(messages[|messages| - 1])
  }

  lemma BytesMore(messages: seq<Message>, m: Message)
    ensures Bytes(messages + [m]) == Bytes(messages) + SizeOf(m)
  {
    assert (messages + [m])[..|messages + [m]| - 1] == messages;
  }

  /** Before the acknowledgment the text of a user message is not kept; the frame must then say
      where it belongs. */
  function PreAcknowledgment(message: Message): Option<Message> {
    if !(message.Notification? && message.body.UserItem?) then Some(message)
    else if message.thread.None? || message.turn.None? then None
    else Some(message.(body := Stripped))
  }

  predicate Acknowledges(message: Message, id: nat) {
    message.Reply? && message.turn.Some? && message.request == id
  }

  /** The turn that the first acknowledgment within these arrivals has named. */
  function TurnOf(arrived: seq<Message>, id: nat): Option<nat> {
    if arrived == [] then None
    else
      var before, last := TurnOf(arrived[..|arrived| - 1], id), arrived[|arrived| - 1];
      if before.None? && Acknowledges(last, id) then last.turn else before
  }

  /** Whether the start has been acknowledged within these arrivals. */
  predicate Acknowledged(arrived: seq<Message>, id: nat) {
    exists i :: 0 <= i < |arrived| && Acknowledges(arrived[i], id)
  }

  lemma {:induction false} TurnIsAcknowledged(arrived: seq<Message>, id: nat)
    ensures TurnOf(arrived, id).Some? <==> Acknowledged(arrived, id)
  {
    if arrived != [] {
      var before, last := arrived[..|arrived| - 1], arrived[|arrived| - 1];
      TurnIsAcknowledged(before, id);
      if Acknowledged(before, id) {
        var i :| 0 <= i < |before| && Acknowledges(before[i], id);
        assert arrived[i] == before[i];
      }
      if Acknowledges(last, id) {
        assert arrived[|arrived| - 1] == last;
      }
      if Acknowledged(arrived, id) && !Acknowledges(last, id) {
        var i :| 0 <= i < |arrived| && Acknowledges(arrived[i], id);
        assert before[i] == arrived[i];
      }
    }
  }

  /** The notifications among the arrivals as they will be dispatched: those that came before
      the acknowledgment without the text of user messages. */
  function Dispatchable(arrived: seq<Message>, id: nat): seq<Message> {
    if arrived == [] then []
    else
      var before, last := arrived[..|arrived| - 1], arrived[|arrived| - 1];
      Dispatchable(before, id)
      + if last.Reply? then []
        else if TurnOf(before, id).Some? then [last]
        else if PreAcknowledgment(last).Some? then [PreAcknowledgment(last).value]
        else []
  }

  lemma ArrivesMore(arrived: seq<Message>, last: Message, id: nat)
    ensures Dispatchable(arrived + [last], id) ==
            Dispatchable(arrived, id)
            + if last.Reply? then []
              else if TurnOf(arrived, id).Some? then [last]
              else if PreAcknowledgment(last).Some? then [PreAcknowledgment(last).value]
              else []
    ensures TurnOf(arrived + [last], id) == if TurnOf(arrived, id).None? && Acknowledges(last, id) then last.turn else TurnOf(arrived, id)
  {
    assert (arrived + [last])[..|arrived + [last]| - 1] == arrived;
  }

  /** Only the text of a user message is left out, and only of one that says where it belongs. */
  lemma KeptAsItIs(m: Message)
    ensures !(m.Notification? && m.body.UserItem?) ==> PreAcknowledgment(m) == Some(m)
    ensures m.Notification? && m.body.UserItem? ==>
              (PreAcknowledgment(m).Some? <==> m.thread.Some? && m.turn.Some?)
              && (PreAcknowledgment(m).Some? ==> PreAcknowledgment(m).value == Notification(m.thread, m.turn, m.kind, Stripped))
  {
  }

  /** Every notification is dispatched at its place, unchanged unless it is a user message that came
      before the acknowledgment. */
  lemma {:induction false} DispatchedAt(arrived: seq<Message>, id: nat, i: nat)
    requires i < |arrived| && arrived[i].Notification?
    requires arrived[i].body.UserItem? ==> TurnOf(arrived[..i], id).Some?
    ensures |Dispatchable(arrived[..i], id)| < |Dispatchable(arrived, id)|
    ensures Dispatchable(arrived, id)[|Dispatchable(arrived[..i], id)|] == arrived[i]
  {
    var n := |arrived| - 1;
    KeptAsItIs(arrived[i]);
    if i < n {
      assert arrived[..n][..i] == arrived[..i];
      DispatchedAt(arrived[..n], id, i);
    }
  }

  lemma NothingArrived(id: nat)
    ensures Dispatchable([], id) == [] && TurnOf([], id).None?
  {
  }

  // ---- What belongs to a turn ----

  predicate HasStart(frames: seq<Message>) {
    exists i :: 0 <= i < |frames| && frames[i].Notification? && frames[i].kind.Started?
  }

  lemma StartMore(frames: seq<Message>, m: Message)
    ensures HasStart(frames + [m]) <==> HasStart(frames) || (m.Notification? && m.kind.Started?)
  {
    var more := frames + [m];
    assert more[|frames|] == m;
    assert forall i :: 0 <= i < |frames| ==> more[i] == frames[i];
  }

  predicate NamesOnly(f: Message, thread: nat, turn: nat) {
    f.Notification? && (f.thread.Some? ==> f.thread.value == thread) && (f.turn.Some? ==> f.turn.value == turn)
  }

  /** All name only this thread and turn, and at most one starts the turn. */
  predicate Belong(frames: seq<Message>, thread: nat, turn: nat) {
    && (forall i :: 0 <= i < |frames| ==> NamesOnly(frames[i], thread, turn))
    && (forall i, j :: 0 <= i < j < |frames| && frames[i].Notification? && frames[j].Notification? ==> !(frames[i].kind.Started? && frames[j].kind.Started?))
  }

  lemma BelongBehind(frames: seq<Message>, thread: nat, turn: nat)
    requires frames != [] && Belong(frames, thread, turn)
    ensures NamesOnly(frames[0], thread, turn) && Belong(frames[1..], thread, turn)
    ensures HasStart(frames[1..]) ==> HasStart(frames) && !frames[0].kind.Started?
    ensures frames[0].kind.Started? ==> HasStart(frames)
  {
    var rest := frames[1..];
    assert forall i :: 0 <= i < |rest| ==> rest[i] == frames[i + 1];
  }

  /** The start and the end of a turn must say which. */
  predicate Nameless(m: Message) {
    m.Notification? && !m.kind.Ordinary? && m.turn.None?
  }

  /** A frame may be taken behind these arrivals: the monitor accepts it; a notification in front
      of the acknowledgment can be kept within the limits, and one behind it belongs to the turn;
      a reply acknowledges at most once, for this request, and what has been kept. */
  predicate Welcome(arrived: seq<Message>, m: Message, id: nat, thread: nat, monitor: seq<Message> -> bool) {
    var kept, turn := Dispatchable(arrived, id), TurnOf(arrived, id);
    && monitor(arrived + [m])
    && if m.Reply? then
         && !(m.request == id && m.failed)
         && (turn.None? && m.turn.Some? ==> m.request == id && Belong(kept, thread, m.turn.value))
         && (turn.Some? ==> !Acknowledges(m, id))
       else if turn.None? then
         PreAcknowledgment(m).Some? && |kept| < MAX_FRAMES && Bytes(kept) + SizeOf(PreAcknowledgment(m).value) <= MAX_FRAME_BYTES
       else
         NamesOnly(m, thread, turn.value) && !Nameless(m) && !(m.kind.Started? && HasStart(kept))
  }

  /** A turn that corrects an earlier one waits for the reply to its own start request. */
  class CorrectionTurn {
    const id: nat
    const thread: nat
    /** What the monitor makes of all it has observed. */
    const monitor: seq<Message> -> bool
    var handoff: bool
    var turn: Option<nat>
    var correctionStarted: bool
    var pendingFrames: seq<Message>
    var pendingBytes: nat
    /** The frame in hand was observed when it arrived. */
    var replayingObserved: bool
    var observed: seq<Message>
    /** The notifications that have been handed on. */
    var dispatched: seq<Message>
    ghost var arrived: seq<Message>

    /** What has been dispatched and what is kept are all notifications so far, in order. What is
        kept belongs to the turn as soon as there is one. */
    ghost predicate Valid()
      reads this
    {
      && observed == arrived && !replayingObserved
      && dispatched + pendingFrames == Dispatchable(arrived, id)
      && turn == TurnOf(arrived, id) && (handoff <==> turn.None?)
      && correctionStarted == HasStart(dispatched)
      && (handoff ==> dispatched == [] && pendingBytes == Bytes(pendingFrames))
      && (!handoff ==> Belong(pendingFrames, thread, turn.value) && !(correctionStarted && HasStart(pendingFrames)))
      && (forall i :: 0 <= i < |pendingFrames| ==> pendingFrames[i].Notification?)
    }

    constructor (id: nat, thread: nat, monitor: seq<Message> -> bool)
      ensures Valid() && arrived == [] && handoff && this.id == id && this.thread == thread && this.monitor == monitor
    {
      this.id, this.thread, this.monitor := id, thread, monitor;
      handoff, turn, correctionStarted, pendingFrames, pendingBytes := true, None, false, [], 0;
      replayingObserved, arrived, observed, dispatched := false, [], [], [];
      new;
      NothingArrived(id);
    }

    /** All kept frames belong to the turn that has been acknowledged, and only one starts it. */
    method FramesBelong(returned: nat) returns (ok: bool)
      requires forall i :: 0 <= i < |pendingFrames| ==> pendingFrames[i].Notification?
      ensures ok <==> Belong(pendingFrames, thread, returned)
    {
      var retainedStart := false;
      for k := 0 to |pendingFrames|
        invariant Belong(pendingFrames[..k], thread, returned)
        invariant retainedStart <==> HasStart(pendingFrames[..k])
      {
        var f := pendingFrames[k];
        assert pendingFrames[..k + 1] == pendingFrames[..k] + [f];
        StartMore(pendingFrames[..k], f);
        if (f.thread.Some? && f.thread.value != thread) || (f.turn.Some? && f.turn.value != returned) {
          assert !NamesOnly(f, thread, returned);
          return false;
        }
        if f.kind.Started? {
          if retainedStart {
            return false;
          }
          retainedStart := true;
        }
      }
      assert pendingFrames[..|pendingFrames|] == pendingFrames;
      return true;
    }

    /** What the turn makes of a frame, once it has been observed. */
    predicate Routes(m: Message)
      reads this
    {
      if m.Reply? then
        && !(handoff && m.turn.Some? && m.request != id) && !(m.request == id && m.failed)
        && (Acknowledges(m, id) ==> handoff && Belong(pendingFrames, thread, m.turn.value) && (turn.Some? ==> turn == m.turn))
      else if handoff then
        && PreAcknowledgment(m).Some? && |pendingFrames| < MAX_FRAMES
        && pendingBytes + SizeOf(PreAcknowledgment(m).value) <= MAX_FRAME_BYTES
      else
        && (m.thread.Some? ==> m.thread.value == thread) && (m.turn.Some? ==> m.turn == turn)
        && !Nameless(m) && !(m.kind.Started? && correctionStarted)
    }

    /** The way every frame goes, whether it comes from the backend or has been kept. */
    method Incoming(m: Message) returns (ok: bool)
      requires forall i :: 0 <= i < |pendingFrames| ==> pendingFrames[i].Notification?
      modifies this`handoff, this`turn, this`correctionStarted, this`pendingFrames, this`pendingBytes, this`replayingObserved, this`observed, this`dispatched
      ensures observed == if old(replayingObserved) then old(observed) else old(observed) + [m]
      ensures !replayingObserved
      ensures ok <==> (old(replayingObserved) || monitor(old(observed) + [m])) && old(Routes(m))
      ensures !ok ==> dispatched == old(dispatched)
      ensures ok && m.Reply? ==> handoff == (old(handoff) && !Acknowledges(m, id)) && turn == (if Acknowledges(m, id) then m.turn else old(turn))
      ensures m.Reply? || !old(handoff) ==> pendingFrames == old(pendingFrames) && pendingBytes == old(pendingBytes)
      ensures ok && m.Reply? ==> dispatched == old(dispatched) && correctionStarted == old(correctionStarted)
      ensures ok && m.Notification? && old(handoff) ==>
                && handoff && turn == old(turn) && dispatched == old(dispatched) && correctionStarted == old(correctionStarted)
                && pendingFrames == old(pendingFrames) + [PreAcknowledgment(m).value]
                && pendingBytes == old(pendingBytes) + SizeOf(PreAcknowledgment(m).value)
      ensures ok && m.Notification? && !old(handoff) ==>
                && !handoff && turn == old(turn) && dispatched == old(dispatched) + [m]
                && correctionStarted == (old(correctionStarted) || m.kind.Started?)
    {
      if !replayingObserved {
        observed := observed + [m];
        if !monitor(observed) {
          return false;
        }
      }
      replayingObserved := false;
      if handoff && m.Notification? {
        ok := Keep(m);
      } else if m.Reply? {
        ok := Answer(m);
      } else {
        ok := Dispatch(m);
      }
    }

    /** In front of the acknowledgment a notification is only kept. */
    method Keep(m: Message) returns (ok: bool)
      requires m.Notification? && handoff
      modifies this`pendingFrames, this`pendingBytes
      ensures ok <==> old(Routes(m))
      ensures ok ==> pendingFrames == old(pendingFrames) + [PreAcknowledgment(m).value]
                     && pendingBytes == old(pendingBytes) + SizeOf(PreAcknowledgment(m).value)
    {
      var kept := PreAcknowledgment(m);
      if kept.None? {
        return false;
      }
      pendingBytes := pendingBytes + SizeOf(kept.value);
      if |pendingFrames| >= MAX_FRAMES || pendingBytes > MAX_FRAME_BYTES {
        return false;
      }
      pendingFrames := pendingFrames + [kept.value];
      return true;
    }

    /** A reply may acknowledge the start, once. */
    method Answer(m: Message) returns (ok: bool)
      requires m.Reply? && forall i :: 0 <= i < |pendingFrames| ==> pendingFrames[i].Notification?
      modifies this`handoff, this`turn
      ensures ok <==> old(Routes(m))
      ensures ok ==> handoff == (old(handoff) && !Acknowledges(m, id)) && turn == if Acknowledges(m, id) then m.turn else old(turn)
    {
      if handoff && m.turn.Some? && m.request != id {
        return false;
      }
      if m.request == id && m.failed {
        return false;
      }
      if m.request == id && m.turn.Some? {
        if !handoff {
          return false;
        }
        ok := FramesBelong(m.turn.value);
        if !ok || (turn.Some? && turn != m.turn) {
          return false;
        }
        turn, handoff := m.turn, false;
      }
      return true;
    }

    /** Behind the acknowledgment a notification must belong to this thread and turn. */
    method Dispatch(m: Message) returns (ok: bool)
      requires m.Notification? && !handoff
      modifies this`dispatched, this`correctionStarted
      ensures ok <==> old(Routes(m))
      ensures ok ==> dispatched == old(dispatched) + [m] && correctionStarted == (old(correctionStarted) || m.kind.Started?)
      ensures !ok ==> dispatched == old(dispatched)
    {
      if (m.thread.Some? && m.thread.value != thread) || (m.turn.Some? && m.turn != turn) {
        return false;
      }
      if m.kind.Started? {
        if correctionStarted || m.turn.None? {
          return false;
        }
        correctionStarted := true;
      }
      if m.kind.Completed? && m.turn.None? {
        return false;
      }
      dispatched := dispatched + [m];
      return true;
    }

    /** A frame from the backend: it is taken if and only if it is welcome; observed at once; and
        kept while the start is not acknowledged. */
    method Receive(m: Message) returns (ok: bool)
      requires Valid() && (handoff || pendingFrames == [])
      modifies this
      ensures arrived == old(arrived) + [m] && observed == arrived
      ensures ok <==> Welcome(old(arrived), m, id, thread, monitor)
      ensures ok ==> Valid() && (!old(handoff) ==> pendingFrames == [])
      ensures dispatched == old(dispatched) || (ok && dispatched == old(dispatched) + [m])
    {
      hide Dispatchable, TurnOf, Bytes, HasStart, Belong;
      ArrivesMore(arrived, m, id);
      StartMore(dispatched, m);
      WelcomeIs(m);
      ghost var kept := pendingFrames;
      if PreAcknowledgment(m).Some? {
        BytesMore(pendingFrames, PreAcknowledgment(m).value);
      }
      NothingBelongs();
      arrived := arrived + [m];
      ok := Incoming(m);
    }

    lemma NothingBelongs()
      ensures !HasStart([]) && forall thread, turn :: Belong([], thread, turn)
    {
    }

    lemma WelcomeIs(m: Message)
      requires Valid() && (handoff || pendingFrames == [])
      ensures Welcome(arrived, m, id, thread, monitor) <==> monitor(observed + [m]) && Routes(m)
    {
      hide Dispatchable, TurnOf, Bytes, HasStart, Belong;
      if handoff {
        assert Dispatchable(arrived, id) == pendingFrames;
      } else {
        assert Dispatchable(arrived, id) == dispatched;
      }
    }

    /** A kept frame is dispatched. It was observed when it arrived, and it was found to belong to
        the turn; so it is refused if and only if it does not say which turn it starts or ends. */
    method Replay() returns (ok: bool)
      requires Valid() && !handoff && pendingFrames != []
      modifies this
      ensures arrived == old(arrived) == observed
      ensures ok <==> !Nameless(old(pendingFrames)[0])
      ensures ok ==> Valid() && pendingFrames == old(pendingFrames)[1..] && dispatched == old(dispatched) + [old(pendingFrames)[0]]
      ensures !ok ==> dispatched == old(dispatched)
    {
      hide Dispatchable, TurnOf, Bytes, HasStart, Belong;
      BelongBehind(pendingFrames, thread, turn.value);
      StartMore(dispatched, pendingFrames[0]);
      var m := pendingFrames[0];
      assert pendingFrames == [m] + pendingFrames[1..];
      ghost var all := dispatched + pendingFrames;
      pendingFrames, replayingObserved := pendingFrames[1..], true;
      ok := Incoming(m);
      assert ok ==> dispatched + pendingFrames == all;
    }

    /** The loop of the turn: kept frames come first once the start is acknowledged. However it
        goes on, each frame is observed once, on arrival, and what has been dispatched is a
        beginning of all notifications in the order they came. It goes on until a frame ends the
        turn, a frame is not welcome, or a kept one does not say which turn it starts or ends. */
    method Run(frames: seq<Message>, last: Message -> bool) returns (ok: bool, ghost taken: nat)
      requires Valid() && arrived == []
      modifies this
      ensures taken <= |frames| && observed == frames[..taken]
      ensures dispatched <= Dispatchable(frames[..taken], id)
      ensures !Acknowledged(frames[..taken], id) ==> dispatched == []
      ensures forall k :: 0 <= k < taken - 1 ==> Welcome(frames[..k], frames[k], id, thread, monitor)
      ensures ok && taken > 0 ==> Welcome(frames[..taken - 1], frames[taken - 1], id, thread, monitor)
      ensures ok && (forall f :: f in dispatched ==> !last(f)) ==>
                taken == |frames| && (Acknowledged(frames, id) ==> dispatched == Dispatchable(frames, id))
      ensures !ok ==> taken > 0 && (!Welcome(frames[..taken - 1], frames[taken - 1], id, thread, monitor) || StopsShort(frames[..taken]))
    {
      hide Dispatchable, TurnOf, Bytes, HasStart, Belong, Acknowledged, Welcome, Nameless;
      NothingArrived(id);
      assert frames[..0] == [];
      var k := 0;
      taken, ok := 0, true;
      while k < |frames| || (!handoff && pendingFrames != [])
        invariant Valid() && k <= |frames| && arrived == frames[..k] && taken == k && ok
        invariant forall f :: f in dispatched ==> !last(f)
        invariant forall i :: 0 <= i < k ==> Welcome(frames[..i], frames[i], id, thread, monitor)
        invariant k == 0 ==> handoff
        decreases |frames| - k, |pendingFrames|
      {
        ghost var had := dispatched;
        if !handoff && pendingFrames != [] {
          ghost var all := dispatched + pendingFrames;
          assert all[|dispatched|] == pendingFrames[0];
          ok := Replay();
        } else {
          assert frames[..k + 1] == frames[..k] + [frames[k]];
          ghost var before := Dispatchable(arrived, id);
          ArrivesMore(arrived, frames[k], id);
          ok := Receive(frames[k]);
          k := k + 1;
          taken := k;
        }
        TurnIsAcknowledged(frames[..k], id);
        if !ok {
          return;
        }
        if dispatched != [] && last(dispatched[|dispatched| - 1]) {
          assert dispatched[|dispatched| - 1] in dispatched;
          return;
        }
        assert dispatched == had || dispatched[..|dispatched| - 1] == had;
        forall f | f in dispatched ensures !last(f) {
          assert f in had || f == dispatched[|dispatched| - 1];
        }
      }
      assert frames[..|frames|] == frames;
      TurnIsAcknowledged(frames, id);
    }

    /** A kept frame that is due to be dispatched does not say which turn it starts or ends. */
    predicate StopsShort(taken: seq<Message>)
      reads this
    {
      && TurnOf(taken, id).Some? && |dispatched| < |Dispatchable(taken, id)|
      && Nameless(Dispatchable(taken, id)[|dispatched|])
    }
  }
}
