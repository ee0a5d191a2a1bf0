/**
 * The response correlator `send_ws` (index.js:68-132). Each call attaches its
 * own `message` listener to a shared socket, sends one frame, and inspects
 * every later inbound frame until one completes the operation; an optional
 * timer removes the listener and rejects. A `Connection` keeps every
 * operation ever started on one socket; the ones still `Listening` are the
 * socket's live `send_ws` listeners.
 */
module Correlator {
  import opened Wrappers
  import opened Wire

  /**
   * The arguments that pick the completion rule: `using_json`,
   * `wait_json_prop_type` (as the number the source switches on; 0 stands for
   * every falsy value), `wait_ai_response`, `append_array` and `timeout_ms`.
   */
  datatype Mode = Mode(usingJson: bool, waitType: int, waitAiResponse: bool,
                       appendArray: bool, timeoutMs: int)

  /** Without JSON or without a wait type the first inbound frame completes the call. */
  predicate OneShot(m: Mode)
  {
    !(m.usingJson && m.waitType != 0)
  }

  /** A timer is armed exactly when `timeout_ms != 0`. */
  predicate HasTimer(m: Mode)
  {
    m.timeoutMs != 0
  }

  /** The value a call resolves with: one frame, or the buffer followed by the matching frame. */
  datatype Reply = Single(frame: Frame) | Batch(frames: seq<Frame>)

  datatype Status = Listening | Resolved(reply: Reply) | Rejected(reason: string)

  /** One call of `send_ws`: its mode, its `temp_res` buffer and how it has settled. */
  datatype Op = Op(mode: Mode, buffer: seq<Frame>, status: Status)

  const TimeoutReason: string := "Timeout exceeded!"

  /** A freshly registered call: empty buffer, listener attached. */
  function Start(m: Mode): (op: Op)
    ensures op.mode == m && op.buffer == [] && op.status.Listening?
  {
    Op(m, [], Listening)
  }

  /**
   * The turn a waiting call inspects: `message.turn` for type 1,
   * `message.push.pub.data.turn` for type 2, and nothing for other types
   * (no `case` of the `switch` runs).
   */
  function Inspect(m: Mode, f: Frame): (p: Probe)
    ensures m.waitType != 1 && m.waitType != 2 ==> p == NoMatch
  {
    var t := if m.waitType == 1 then f.turn else f.push;
    if m.waitType != 1 && m.waitType != 2 then NoMatch
    else if m.waitAiResponse then ProbeAiReply(t)
    else ProbeFinal(t)
  }

  /**
   * What the listener of `op` does with one inbound frame. A settled call has
   * no listener and is unaffected. A one-shot call resolves with the frame.
   * A waiting call resolves on `Match` (with the buffer ahead of the frame
   * only when it does not wait for an AI reply and `append_array` is set),
   * buffers the frame on `Throws` when `append_array` is set, and otherwise
   * ignores it.
   */
  function Step(op: Op, f: Frame): (r: Op)
    ensures r.mode == op.mode
    ensures !op.status.Listening? ==> r == op
    ensures r.buffer == op.buffer || r.buffer == op.buffer + [f]
    ensures r.buffer != op.buffer ==> op.mode.appendArray && r.status.Listening?
    ensures r.status.Resolved? && op.status.Listening? ==>
      r.status.reply == Single(f) || r.status.reply == Batch(op.buffer + [f])
    ensures !r.status.Rejected? || r == op
  {
    if !op.status.Listening? then op
    else if OneShot(op.mode) then op.(status := Resolved(Single(f)))
    else
      match Inspect(op.mode, f)
      case Match =>
        if !op.mode.waitAiResponse && op.mode.appendArray
        then op.(status := Resolved(Batch(op.buffer + [f])))
        else op.(status := Resolved(Single(f)))
      case NoMatch => op
      case Throws => if op.mode.appendArray then op.(buffer := op.buffer + [f]) else op
  }

  /** The timer callback: only a call still listening with an armed timer is rejected. */
  function TimedOut(op: Op): (r: Op)
    ensures r.mode == op.mode && r.buffer == op.buffer
    ensures r.status.Rejected? <==> op.status.Rejected? || (op.status.Listening? && HasTimer(op.mode))
    ensures r != op ==> r.status == Rejected(TimeoutReason)
  {
    if op.status.Listening? && HasTimer(op.mode) then op.(status := Rejected(TimeoutReason)) else op
  }

  /** The same frame offered to every call on the socket; each call steps independently of the others. */
  function StepAll(ops: seq<Op>, f: Frame): (r: seq<Op>)
    ensures |r| == |ops|
    ensures forall i :: 0 <= i < |ops| ==> r[i] == Step(ops[i], f)
  {
    seq(|ops|, i requires 0 <= i < |ops| => Step(ops[i], f))
  }

  /** One call observing a stream of frames, oldest first. */
  function Run(op: Op, fs: seq<Frame>): (r: Op)
  {
    if fs == [] then op else Step(Run(op, fs[..|fs| - 1]), fs[|fs| - 1])
  }

  /** The frames of a stream whose shape probe throws for mode `m`, in arrival order. */
  function Thrown(m: Mode, fs: seq<Frame>): (r: seq<Frame>)
  {
    if fs == [] then []
    else Thrown(m, fs[..|fs| - 1]) + (if Inspect(m, fs[|fs| - 1]) == Throws then [fs[|fs| - 1]] else [])
  }

  /** The number of calls whose listener is still attached to the socket. */
  function ListenerCount(ops: seq<Op>): (n: nat)
    ensures n <= |ops|
  {
    if ops == [] then 0
    else ListenerCount(ops[..|ops| - 1]) + (if ops[|ops| - 1].status.Listening? then 1 else 0)
  }

  // ---------------------------------------------------------------------
  // Completion rules
  // ---------------------------------------------------------------------

  /**
   * With an AI-reply wait of type 1 or 2, a frame completes the call exactly
   * when the inspected turn has a non-human author and a final first
   * candidate, and the call resolves with that frame alone, even when
   * `append_array` is set.
   */
  lemma AiReplyCompletion(op: Op, f: Frame)
    requires op.status.Listening? && !OneShot(op.mode) && op.mode.waitAiResponse
    requires op.mode.waitType == 1 || op.mode.waitType == 2
    ensures var t := if op.mode.waitType == 1 then f.turn else f.push;
      Step(op, f).status.Resolved? <==>
        t.Some? && t.value.author.Some? && !t.value.author.value.isHuman &&
        FirstCandidate(t.value).Some? && FirstCandidate(t.value).value.isFinal
    ensures Step(op, f).status.Resolved? ==> Step(op, f).status.reply == Single(f)
  {
  }

  /**
   * Without an AI-reply wait, a frame completes a type 1 or 2 call exactly
   * when the first candidate of the inspected turn is final; the result is
   * the buffer followed by the frame under `append_array`, the frame alone
   * otherwise.
   */
  lemma FinalCompletion(op: Op, f: Frame)
    requires op.status.Listening? && !OneShot(op.mode) && !op.mode.waitAiResponse
    requires op.mode.waitType == 1 || op.mode.waitType == 2
    ensures var t := if op.mode.waitType == 1 then f.turn else f.push;
      Step(op, f).status.Resolved? <==>
        t.Some? && FirstCandidate(t.value).Some? && FirstCandidate(t.value).value.isFinal
    ensures Step(op, f).status.Resolved? ==>
      Step(op, f).status.reply ==
        (if op.mode.appendArray then Batch(op.buffer + [f]) else Single(f))
  {
  }

  /** A wait type other than 0, 1 and 2 with JSON never completes on a frame. */
  lemma {:induction false} UnknownWaitTypeNeverCompletes(op: Op, fs: seq<Frame>)
    requires op.status.Listening? && op.mode.usingJson
    requires op.mode.waitType != 0 && op.mode.waitType != 1 && op.mode.waitType != 2
    ensures Run(op, fs) == op
  {
    if fs != [] {
      UnknownWaitTypeNeverCompletes(op, fs[..|fs| - 1]);
    }
  }

  /** Without JSON, or with wait type 0, the first inbound frame completes the call. */
  lemma OneShotCompletion(m: Mode, f: Frame)
    requires OneShot(m)
    ensures Run(Start(m), [f]) == Op(m, [], Resolved(Single(f)))
  {
  }

  /**
   * The keepalive filter of `open_ws` does not shield `send_ws` listeners:
   * a one-shot call resolves with the `{}` probe itself, and a waiting call
   * with `append_array` buffers it.
   */
  lemma KeepaliveReachesListeners(op: Op, f: Frame)
    requires op.status.Listening? && f.text == KeepaliveText && WellDecoded(f)
    ensures OneShot(op.mode) ==> Step(op, f).status == Resolved(Single(f))
    ensures (!OneShot(op.mode) && (op.mode.waitType == 1 || op.mode.waitType == 2) &&
             op.mode.appendArray) ==> Step(op, f).buffer == op.buffer + [f]
  {
  }

  // ---------------------------------------------------------------------
  // Settling at most once, buffer order
  // ---------------------------------------------------------------------

  /** A settled call keeps its outcome whatever frames follow, and no timer fires on it. */
  lemma {:induction false} SettledIsFinal(op: Op, fs: seq<Frame>)
    requires !op.status.Listening?
    ensures Run(op, fs) == op
    ensures TimedOut(op) == op
  {
    if fs != [] {
      SettledIsFinal(op, fs[..|fs| - 1]);
    }
  }

  /** If a call is listening after a stream, it was listening at every earlier point. */
  lemma {:induction false} ListeningBefore(op: Op, fs: seq<Frame>, k: nat)
    requires k <= |fs| && Run(op, fs).status.Listening?
    ensures Run(op, fs[..k]).status.Listening?
  {
    if k < |fs| {
      var init := fs[..|fs| - 1];
      assert Run(op, fs) == Step(Run(op, init), fs[|fs| - 1]);
      assert init[..k] == fs[..k];
      ListeningBefore(op, init, k);
    } else {
      assert fs[..k] == fs;
    }
  }

  /**
   * The buffer only grows, and only with frames whose shape probe throws
   * while `append_array` is set, in arrival order; well-formed frames that
   * are not final are dropped.
   */
  lemma {:induction false} BufferIsThrownFrames(op: Op, fs: seq<Frame>)
    requires op.status.Listening? && !OneShot(op.mode)
    requires Run(op, fs).status.Listening?
    ensures Run(op, fs).mode == op.mode
    ensures Run(op, fs).buffer ==
      (if op.mode.appendArray then op.buffer + Thrown(op.mode, fs) else op.buffer)
  {
    if fs != [] {
      var init := fs[..|fs| - 1];
      ListeningBefore(op, fs, |fs| - 1);
      BufferIsThrownFrames(op, init);
    }
  }

  /**
   * The result of an accumulating call that does not wait for an AI reply:
   * every earlier frame whose probe threw, in arrival order, then the
   * matching frame.
   */
  lemma ResolvedBatchOrder(m: Mode, fs: seq<Frame>, f: Frame)
    requires !OneShot(m) && m.appendArray && !m.waitAiResponse
    requires Run(Start(m), fs).status.Listening?
    requires Step(Run(Start(m), fs), f).status.Resolved?
    ensures Run(Start(m), fs + [f]).status == Resolved(Batch(Thrown(m, fs) + [f]))
  {
    BufferIsThrownFrames(Start(m), fs);
    assert (fs + [f])[..|fs|] == fs;
  }

  /**
   * A stream of partial turns followed by a final one: only the final
   * frame settles a single-character generation wait, and the partial
   * frames leave nothing behind.
   */
  lemma PartialThenFinal(m: Mode, p1: Frame, p2: Frame, fin: Frame)
    requires m == Mode(true, 1, true, false, 0)
    requires p1.turn == Some(Turn(Some(Author(false)), Some([Candidate(false)])))
    requires p2.turn == p1.turn
    requires fin.turn == Some(Turn(Some(Author(false)), Some([Candidate(true)])))
    ensures Run(Start(m), [p1, p2]) == Start(m)
    ensures Run(Start(m), [p1, p2, fin]) == Op(m, [], Resolved(Single(fin)))
  {
    assert [p1, p2][..1] == [p1];
    assert [p1, p2, fin][..2] == [p1, p2];
    assert [p1][..0] == [];
    assert Inspect(m, p1) == NoMatch && Inspect(m, p2) == NoMatch;
    assert Run(Start(m), [p1]) == Step(Start(m), p1) == Start(m);
    assert Run(Start(m), [p1, p2]) == Step(Start(m), p2) == Start(m);
    assert Inspect(m, fin) == Match;
  }

  // ---------------------------------------------------------------------
  // Listener bookkeeping
  // ---------------------------------------------------------------------

  /** Registering a call adds exactly one listener. */
  lemma {:induction false} ListenerCountAppend(ops: seq<Op>, op: Op)
    ensures ListenerCount(ops + [op]) ==
      ListenerCount(ops) + (if op.status.Listening? then 1 else 0)
  {
  }

  /** Settling one listening call removes exactly one listener. */
  lemma {:induction false} ListenerCountSettle(ops: seq<Op>, i: nat, r: Op)
    requires i < |ops| && ops[i].status.Listening? && !r.status.Listening?
    ensures ListenerCount(ops[i := r]) == ListenerCount(ops) - 1
  {
    var last := |ops| - 1;
    if i < last {
      assert ops[i := r][..last] == ops[..last][i := r];
      ListenerCountSettle(ops[..last], i, r);
    } else {
      assert ops[i := r][..last] == ops[..last];
    }
  }

  /** A frame never attaches a listener; listeners only go away. */
  lemma {:induction false} ListenerCountStepAll(ops: seq<Op>, f: Frame)
    ensures ListenerCount(StepAll(ops, f)) <= ListenerCount(ops)
  {
    if ops != [] {
      var last := |ops| - 1;
      assert StepAll(ops, f)[..last] == StepAll(ops[..last], f);
      ListenerCountStepAll(ops[..last], f);
    }
  }

  /**
   * One frame can settle several calls at once: every call has its own
   * listener, so two one-shot calls both resolve with the same frame.
   */
  lemma OneFrameSettlesMany(m: Mode, f: Frame)
    requires OneShot(m)
    ensures var after := StepAll([Start(m), Start(m)], f);
      after[0].status.Resolved? && after[1].status.Resolved? &&
      ListenerCount(after) == ListenerCount([Start(m), Start(m)]) - 2
  {
  }

  /** The first frame `open_ws` sends when it knows the user id. */
  function Handshake(userId: string): (s: string)
  {
    "{\"connect\":{\"name\":\"js\"},\"id\":1}{\"subscribe\":{\"channel\":\"user#" + userId + "\"},\"id\":1}"
  }

  /**
   * One socket opened by `open_ws`: the frames written to it, the messages
   * its handler re-emitted on the client, and every `send_ws` call made on
   * it (index is the call's identity).
   */
  class Connection {
    var sent: seq<string>
    var emitted: seq<string>
    var ops: seq<Op>

    /** `open_ws`: on open, the connect/subscribe pair is sent when a user id is given. */
    constructor Open(userId: string)
      ensures sent == (if userId != "" then [Handshake(userId)] else [])
      ensures emitted == [] && ops == []
    {
      sent := if userId != "" then [Handshake(userId)] else [];
      emitted := [];
      ops := [];
    }

    /**
     * `send_ws`: attach a listener for a new call, then write `data`. The
     * returned index names the call for `Expire`.
     */
    method SendWs(data: string, m: Mode) returns (id: nat)
      modifies this
      ensures id == |old(ops)| && ops == old(ops) + [Start(m)]
      ensures sent == old(sent) + [data] && emitted == old(emitted)
      ensures ListenerCount(ops) == ListenerCount(old(ops)) + 1
    {
      id := |ops|;
      ListenerCountAppend(ops, Start(m));
      ops := ops + [Start(m)];
      sent := sent + [data];
    }

    /**
     * One inbound message. The `open_ws` handler runs first (it was attached
     * first) and answers or re-emits it; then every call's listener sees
     * it, whether or not it is the keepalive probe.
     */
    method Deliver(f: Frame)
      modifies this
      ensures sent == old(sent) + OnSocketMessage(f.text).echoed
      ensures emitted == old(emitted) + OnSocketMessage(f.text).reemitted
      ensures ops == StepAll(old(ops), f)
      ensures ListenerCount(ops) <= ListenerCount(old(ops))
    {
      var effect := OnSocketMessage(f.text);
      sent := sent + effect.echoed;
      emitted := emitted + effect.reemitted;
      var i := 0;
      while i < |ops|
        invariant 0 <= i <= |ops| == |old(ops)|
        invariant forall k :: 0 <= k < i ==> ops[k] == Step(old(ops)[k], f)
        invariant forall k :: i <= k < |ops| ==> ops[k] == old(ops)[k]
        invariant sent == old(sent) + effect.echoed
        invariant emitted == old(emitted) + effect.reemitted
      {
        ops := ops[i := Step(ops[i], f)];
        i := i + 1;
      }
      ListenerCountStepAll(old(ops), f);
    }

    /**
     * The timer of call `id` fires. It exists only while the call listens
     * and `timeout_ms != 0`; it then detaches the listener and rejects.
     */
    method Expire(id: nat)
      requires id < |ops|
      modifies this`ops
      ensures ops == old(ops)[id := TimedOut(old(ops)[id])]
      ensures ListenerCount(ops) ==
        ListenerCount(old(ops)) - (if old(ops)[id] != ops[id] then 1 else 0)
    {
      var r := TimedOut(ops[id]);
      if r != ops[id] {
        ListenerCountSettle(ops, id, r);
      } else {
        assert ops[id := r] == ops;
      }
      ops := ops[id := r];
    }
  }
}
