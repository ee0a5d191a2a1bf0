/**
 * Inbound frames as the client sees them once `JSON.parse` has run, the two
 * shape probes the response correlator evaluates on them, and the keepalive
 * filter that every socket runs first (index.js:60-64).
 */
module Wire {
  import opened Wrappers

  /** `candidates[i]`; `isFinal` is the truthiness of its `is_final` field. */
  datatype Candidate = Candidate(isFinal: bool)

  /** `turn.author`; `isHuman` is the truthiness of its `is_human` field. */
  datatype Author = Author(isHuman: bool)

  /**
   * A turn object. A field that is missing (or null) is `None`: reading
   * through it raises a `TypeError` in the source.
   */
  datatype Turn = Turn(author: Option<Author>, candidates: Option<seq<Candidate>>)

  /**
   * One inbound socket message: its raw text and the decoded view of it.
   * `turn` is the top-level `turn` field (single-character chat shape);
   * `push` is the turn at `push.pub.data.turn` (room shape), `None` when any
   * link of that path is missing; `error` is the truthiness of `error`.
   */
  datatype Frame = Frame(text: string, turn: Option<Turn>, push: Option<Turn>, error: bool)

  /** The empty-object keepalive probe the server sends. */
  const KeepaliveText: string := "{}"

  /** The decoded view agrees with the text for the keepalive probe: `{}` has no fields. */
  predicate WellDecoded(f: Frame)
  {
    f.text == KeepaliveText ==> f.turn.None? && f.push.None? && !f.error
  }

  /** Outcome of evaluating a completion test inside the correlator's `try`. */
  datatype Probe = Match | NoMatch | Throws

  /** `turn.candidates[0]`, absent when `candidates` is missing or empty. */
  function FirstCandidate(t: Turn): (c: Option<Candidate>)
    ensures c.Some? <==> t.candidates.Some? && |t.candidates.value| > 0
    ensures c.Some? ==> c.value == t.candidates.value[0]
  {
    match t.candidates
    case None => None
    case Some(cs) => if |cs| == 0 then None else Some(cs[0])
  }

  /**
   * `!turn.author.is_human && turn.candidates[0].is_final`, evaluated with
   * JavaScript's left-to-right short circuit: a human author makes the test
   * false without `candidates` ever being read.
   */
  function ProbeAiReply(t: Option<Turn>): (p: Probe)
    ensures p == Match <==>
      t.Some? && t.value.author.Some? && !t.value.author.value.isHuman &&
      FirstCandidate(t.value).Some? && FirstCandidate(t.value).value.isFinal
    ensures p == Throws <==>
      t.None? || t.value.author.None? ||
      (!t.value.author.value.isHuman && FirstCandidate(t.value).None?)
  {
    match t
    case None => Throws
    case Some(turn) =>
      match turn.author
      case None => Throws
      case Some(a) =>
        if a.isHuman then NoMatch
        else
          match FirstCandidate(turn)
          case None => Throws
          case Some(c) => if c.isFinal then Match else NoMatch
  }

  /** `turn.candidates[0].is_final`: authorship is not read at all. */
  function ProbeFinal(t: Option<Turn>): (p: Probe)
    ensures p == Match <==>
      t.Some? && FirstCandidate(t.value).Some? && FirstCandidate(t.value).value.isFinal
    ensures p == Throws <==> t.None? || FirstCandidate(t.value).None?
  {
    match t
    case None => Throws
    case Some(turn) =>
      match FirstCandidate(turn)
      case None => Throws
      case Some(c) => if c.isFinal then Match else NoMatch
  }

  /** What the `open_ws` message handler does with one inbound message. */
  datatype KeepaliveEffect = KeepaliveEffect(echoed: seq<string>, reemitted: seq<string>)

  /**
   * The `open_ws` handler: the keepalive probe is answered by sending `{}`
   * back on the same socket and is not re-emitted as a client `message`
   * event; every other message is re-emitted unchanged and nothing is sent.
   */
  function OnSocketMessage(text: string): (e: KeepaliveEffect)
    ensures |e.echoed| + |e.reemitted| == 1
    ensures e.echoed == [KeepaliveText] <==> text == KeepaliveText
    ensures e.reemitted == [text] <==> text != KeepaliveText
  {
    if text == KeepaliveText then KeepaliveEffect([KeepaliveText], [])
    else KeepaliveEffect([], [text])
  }

  /** The messages a stream of inbound texts leaves on the client-level emitter. */
  function Reemitted(texts: seq<string>): (r: seq<string>)
  {
    if texts == [] then []
    else Reemitted(texts[..|texts| - 1]) + OnSocketMessage(texts[|texts| - 1]).reemitted
  }

  /** The messages of a stream other than the keepalive probe, in arrival order. */
  function NonProbes(texts: seq<string>): (r: seq<string>)
  {
    if texts == [] then []
    else if texts[0] == KeepaliveText then NonProbes(texts[1..])
    else [texts[0]] + NonProbes(texts[1..])
  }

  /** Filtering a stream extended by one message extends the filtered stream by at most that message. */
  lemma {:induction false} NonProbesSnoc(texts: seq<string>, t: string)
    ensures NonProbes(texts + [t]) == NonProbes(texts) + (if t == KeepaliveText then [] else [t])
  {
    if texts != [] {
      assert (texts + [t])[1..] == texts[1..] + [t];
      NonProbesSnoc(texts[1..], t);
    }
  }

  /** The number of `{}` frames the client writes back for a stream of inbound texts. */
  function EchoCount(texts: seq<string>): (n: nat)
  {
    if texts == [] then 0
    else EchoCount(texts[..|texts| - 1]) + |OnSocketMessage(texts[|texts| - 1]).echoed|
  }

  /** Counts the keepalive probes in a stream. */
  function ProbeCount(texts: seq<string>): (n: nat)
  {
    if texts == [] then 0
    else ProbeCount(texts[..|texts| - 1]) + (if texts[|texts| - 1] == KeepaliveText then 1 else 0)
  }

  /**
   * Over any stream, exactly one `{}` is written back per probe, no probe
   * reaches the client emitter, and every other message reaches it once, in
   * arrival order.
   */
  lemma {:induction false} KeepaliveStream(texts: seq<string>)
    ensures EchoCount(texts) == ProbeCount(texts)
    ensures KeepaliveText !in Reemitted(texts)
    ensures |Reemitted(texts)| + ProbeCount(texts) == |texts|
    ensures Reemitted(texts) == NonProbes(texts)
    ensures forall i :: 0 <= i < |texts| && texts[i] != KeepaliveText ==>
      texts[i] in Reemitted(texts)
  {
    if texts != [] {
      var init := texts[..|texts| - 1];
      KeepaliveStream(init);
      NonProbesSnoc(init, texts[|texts| - 1]);
      assert init + [texts[|texts| - 1]] == texts;
      forall i | 0 <= i < |texts| && texts[i] != KeepaliveText
        ensures texts[i] in Reemitted(texts)
      {
        if i < |texts| - 1 {
          assert texts[i] == init[i];
        }
      }
    }
  }
}
