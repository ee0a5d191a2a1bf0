/**
 * The integer logic of `Livekit_Class`: the silence test `is_speech` over
 * little-endian 16-bit PCM (index.js:2963-2977) and the speaking flag and
 * current candidate kept from the room's data events and cleared by
 * `interrupt_call` (index.js:2893-2906, 3014-3026).
 */
module Voice {
  import opened Wrappers

  newtype byte = x: int | 0 <= x < 256

  function Abs(x: int): (r: nat)
    ensures r == x || r == -x
  {
    if x < 0 then -x else x
  }

  /**
   * The sample `is_speech` decodes from a low and a high byte. The sign
   * test is `hi > 128`, so a high byte of exactly 128 counts as positive.
   */
  function SampleAsWritten(lo: byte, hi: byte): (s: int)
    ensures hi == 128 ==> s == 32768 + lo as int
    ensures hi != 128 ==> s == Sample(lo, hi)
  {
    (if hi > 128 then (hi as int - 256) * 256 else hi as int * 256) + lo as int
  }

  /** The little-endian two's-complement 16-bit sample of two bytes. */
  function Sample(lo: byte, hi: byte): (s: int)
    ensures -32768 <= s < 32768
  {
    (if hi >= 128 then (hi as int - 256) * 256 else hi as int * 256) + lo as int
  }

  /** The low byte of a 16-bit sample. */
  function LowByte(s: int): (b: byte)
  {
    (s % 256) as byte
  }

  /** The high byte of a 16-bit sample (arithmetic shift, then the low 8 bits). */
  function HighByte(s: int): (b: byte)
  {
    ((s / 256) % 256) as byte
  }

  /** Decoding inverts encoding on every 16-bit value. */
  lemma SampleRoundTrip(s: int)
    requires -32768 <= s < 32768
    ensures Sample(LowByte(s), HighByte(s)) == s
  {
  }

  /** Encoding inverts decoding on every pair of bytes. */
  lemma SampleBytes(lo: byte, hi: byte)
    ensures LowByte(Sample(lo, hi)) == lo && HighByte(Sample(lo, hi)) == hi
  {
  }

  /** Pair `j` of the chunk is above the threshold, as `is_speech` decodes it. */
  predicate LoudAsWritten(chunk: seq<byte>, j: nat, threshold: int)
    requires 2 * j + 1 < |chunk|
  {
    Abs(SampleAsWritten(chunk[2 * j], chunk[2 * j + 1])) > threshold
  }

  /** Pair `j` of the chunk is above the threshold as a 16-bit sample. */
  predicate Loud(chunk: seq<byte>, j: nat, threshold: int)
    requires 2 * j + 1 < |chunk|
  {
    Abs(Sample(chunk[2 * j], chunk[2 * j + 1])) > threshold
  }

  /** What `is_speech` decides: some complete sample pair is loud as it decodes it. */
  predicate SpeechAsWritten(chunk: seq<byte>, threshold: int)
  {
    exists j: nat | j < |chunk| :: 2 * j + 1 < |chunk| && LoudAsWritten(chunk, j, threshold)
  }

  /** The intended test: some 16-bit sample exceeds the threshold in magnitude. */
  predicate Speech(chunk: seq<byte>, threshold: int)
  {
    exists j: nat | j < |chunk| :: 2 * j + 1 < |chunk| && Loud(chunk, j, threshold)
  }

  /**
   * `is_speech`. It walks the chunk two bytes at a time and returns true at
   * the first loud sample. A trailing odd byte reads `undefined` as its high
   * byte, which makes the sample `NaN`, never loud. Every other iteration
   * counts as silence, so the closing test `consecutiveSilence >=
   * chunk.length / 2` always holds and the result is false.
   */
  method IsSpeech(chunk: seq<byte>, threshold: int) returns (speech: bool)
    ensures speech <==> SpeechAsWritten(chunk, threshold)
  {
    var consecutiveSilence := 0;
    var i := 0;
    while i < |chunk|
      invariant 0 <= i <= |chunk| + 1 && i % 2 == 0
      invariant consecutiveSilence == i / 2
      invariant forall j: nat :: 2 * j + 1 < |chunk| && 2 * j < i ==> !LoudAsWritten(chunk, j, threshold)
    {
      if i + 1 < |chunk| {
        var speechSample := SampleAsWritten(chunk[i], chunk[i + 1]);
        if Abs(speechSample) > threshold {
          assert LoudAsWritten(chunk, i / 2, threshold);
          return true;
        }
      }
      consecutiveSilence := consecutiveSilence + 1;
      i := i + 2;
    }
    speech := !(2 * consecutiveSilence >= |chunk|);
  }

  /**
   * The two tests disagree: bytes `[255, 128]` hold the sample -32513, below
   * a threshold of 32600 in magnitude, but `is_speech` decodes 33023.
   */
  lemma SampleAsWrittenDiffers()
    ensures SampleAsWritten(0, 128) == 32768 && Sample(0, 128) == -32768
    ensures SpeechAsWritten([255, 128], 32600) && !Speech([255, 128], 32600)
  {
    var c: seq<byte> := [255, 128];
    assert LoudAsWritten(c, 0, 32600);
    forall j: nat | 2 * j + 1 < |c| ensures !Loud(c, j, 32600) {
      assert j == 0;
    }
  }

  /** The two tests agree whenever no high byte is 128. */
  lemma SpeechAgreesOffBoundary(chunk: seq<byte>, threshold: int)
    requires forall j: nat :: 2 * j + 1 < |chunk| ==> chunk[2 * j + 1] != 128
    ensures SpeechAsWritten(chunk, threshold) <==> Speech(chunk, threshold)
  {
    if SpeechAsWritten(chunk, threshold) {
      var j: nat :| 2 * j + 1 < |chunk| && LoudAsWritten(chunk, j, threshold);
      assert Loud(chunk, j, threshold);
    }
    if Speech(chunk, threshold) {
      var j: nat :| 2 * j + 1 < |chunk| && Loud(chunk, j, threshold);
      assert LoudAsWritten(chunk, j, threshold);
    }
  }

  /** A `dataReceived` event of the voice room: its `event` name and `candidateId`. */
  datatype VoiceEvent = VoiceEvent(name: string, candidateId: Option<string>)

  const NotTalkingMessage: string := "Character is still not talking."

  /** What `interrupt_call` does: return a message when there is nothing to interrupt, or ask to discard a candidate. */
  datatype Interrupt = NotTalking(message: string) | Discard(candidateId: string)

  /** The speaking flag and current candidate of one voice call. */
  class Speaker {
    var speaking: bool
    var candidateId: Option<string>

    /** The constructor leaves both fields unset (falsy). */
    constructor ()
      ensures !speaking && candidateId.None?
    {
      speaking := false;
      candidateId := None;
    }

    /** `speechStarted` records the candidate and raises the flag; `speechEnded` clears both. */
    method OnData(e: VoiceEvent)
      modifies this
      ensures e.name == "speechStarted" ==> speaking && candidateId == e.candidateId
      ensures e.name == "speechEnded" ==> !speaking && candidateId.None?
      ensures e.name != "speechStarted" && e.name != "speechEnded" ==> unchanged(this)
    {
      if e.name == "speechStarted" {
        candidateId := e.candidateId;
        speaking := true;
      } else if e.name == "speechEnded" {
        candidateId := None;
        speaking := false;
      }
    }

    /**
     * `interrupt_call`: with no (or an empty) candidate it reports that the
     * character is not talking; otherwise it asks for that candidate to be
     * discarded and forgets it, leaving the speaking flag as it was.
     */
    method InterruptCall() returns (r: Interrupt)
      modifies this`candidateId
      ensures old(candidateId).None? || old(candidateId) == Some("") ==>
        r == NotTalking(NotTalkingMessage) && candidateId == old(candidateId)
      ensures old(candidateId).Some? && old(candidateId) != Some("") ==>
        r == Discard(old(candidateId).value) && candidateId.None?
      ensures speaking == old(speaking)
    {
      if candidateId.None? || candidateId == Some("") {
        return NotTalking(NotTalkingMessage);
      }
      r := Discard(candidateId.value);
      candidateId := None;
    }
  }
}
