/** The message composer (StickerSmash/components/ChatInput.tsx): a draft,
    a recording flag, the send gate and the Send / Mic / Stop controls. */
module ChatInputModel {
  import opened Optional

  /** A fixed whitespace set standing in for the characters `String.prototype.trim`
      strips: space, tab, line feed, vertical tab, form feed, carriage return,
      no-break space, byte-order mark, line and paragraph separators. */
  predicate IsWhitespace(c: char) {
    c == ' ' || c == '\t' || c == '\n' || c == '\U{000B}' || c == '\U{000C}' || c == '\r'
    || c == '\U{00A0}' || c == '\U{FEFF}' || c == '\U{2028}' || c == '\U{2029}'
  }

  predicate AllWhitespace(s: string) {
    forall k :: 0 <= k < |s| ==> IsWhitespace(s[k])
  }

  /** Neither end of `s` is a whitespace character. */
  predicate IsTrimmed(s: string) {
    s == [] || (!IsWhitespace(s[0]) && !IsWhitespace(s[|s| - 1]))
  }

  /** `s` without its leading whitespace: the longest suffix that does not start
      with whitespace, everything before it being whitespace. */
  function TrimStart(s: string): (r: string)
    ensures |r| <= |s| && r == s[|s| - |r|..]
    ensures AllWhitespace(s[..|s| - |r|])
    ensures r == [] || !IsWhitespace(r[0])
  {
    if s != [] && IsWhitespace(s[0]) then TrimStart(s[1..]) else s
  }

  /** `s` without its trailing whitespace. */
  function TrimEnd(s: string): (r: string)
    ensures |r| <= |s| && r == s[..|r|]
    ensures AllWhitespace(s[|r|..])
    ensures r == [] || !IsWhitespace(r[|r| - 1])
  {
    if s != [] && IsWhitespace(s[|s| - 1]) then TrimEnd(s[..|s| - 1]) else s
  }

  /** `String.prototype.trim` over the fixed whitespace set. */
  function Trim(s: string): (r: string)
    ensures IsTrimmed(r)
    ensures r == [] <==> AllWhitespace(s)
  {
    var t := TrimStart(s);
    var r := TrimEnd(t);
    assert r == [] ==> AllWhitespace(s) by {
      if r == [] {
        assert s == s[..|s| - |t|] + t;
        assert t == t[|r|..];
      }
    }
    r
  }

  /** Trimming twice is trimming once. */
  lemma TrimIdempotent(s: string)
    ensures Trim(Trim(s)) == Trim(s)
  {
  }

  /** The trimmed text is the part of the draft between its leading and its
      trailing whitespace. */
  lemma TrimIsInnerSlice(s: string)
    ensures exists i, j ::
              && 0 <= i <= j <= |s|
              && Trim(s) == s[i..j]
              && AllWhitespace(s[..i])
              && AllWhitespace(s[j..])
  {
    var t := TrimStart(s);
    var i := |s| - |t|;
    var j := i + |Trim(s)|;
    assert Trim(s) == s[i..j];
    assert s[j..] == t[|Trim(s)|..];
  }

  /** The guard `if (message.trim())`: a non-empty trimmed draft is truthy. */
  predicate CanSend(draft: string) {
    Trim(draft) != []
  }

  /** What `handleSend` passes to `onSend`, if it calls it at all. */
  function Forwarded(draft: string): (r: Option<string>)
    ensures r.Some? <==> !AllWhitespace(draft)
    ensures r.Some? ==> r.value != [] && IsTrimmed(r.value)
  {
    if CanSend(draft) then Some(Trim(draft)) else None
  }

  /** The forwarded text is a fixed point of trimming. */
  lemma ForwardedIsTrimFixedPoint(draft: string)
    requires Forwarded(draft).Some?
    ensures Trim(Forwarded(draft).value) == Forwarded(draft).value
  {
  }

  const VoiceTranscript: string := "I'd like to check my balance"

  /** What the composer shows beside (or instead of) the text field. */
  datatype Controls = StopButton | SendButton | MicButton

  function ControlsFor(draft: string, isRecording: bool): (r: Controls)
    ensures r == StopButton <==> isRecording
    ensures r == SendButton <==> !isRecording && !AllWhitespace(draft)
    ensures r == MicButton <==> !isRecording && AllWhitespace(draft)
  {
    if isRecording then StopButton else if CanSend(draft) then SendButton else MicButton
  }

  /** The Send button is offered exactly when pressing it forwards the draft;
      otherwise the Mic button is offered. */
  lemma SendButtonIffForwarded(draft: string)
    ensures ControlsFor(draft, false) == SendButton <==> Forwarded(draft).Some?
    ensures ControlsFor(draft, false) == MicButton <==> Forwarded(draft).None?
  {
  }

  class ChatInput {
    var draft: string
    var isRecording: bool
    /** Recording completions that `startRecording` has scheduled and that have
        not fired yet. */
    var pendingCompletions: nat

    constructor ()
      ensures draft == [] && !isRecording && pendingCompletions == 0
    {
      draft := [];
      isRecording := false;
      pendingCompletions := 0;
    }

    /** `onChangeText={setMessage}`: the text field replaces the draft. */
    method Edit(text: string)
      modifies this`draft
      ensures draft == text
    {
      draft := text;
    }

    /** `handleSend`: forwards the trimmed draft and clears it, or does nothing. */
    method HandleSend() returns (sent: Option<string>)
      modifies this`draft
      ensures sent == Forwarded(old(draft))
      ensures draft == if sent.Some? then [] else old(draft)
    {
      if CanSend(draft) {
        sent := Some(Trim(draft));
        draft := [];
      } else {
        sent := None;
      }
    }

    /** `startRecording`: turns recording on and schedules one completion. */
    method StartRecording()
      modifies this`isRecording, this`pendingCompletions
      ensures isRecording
      ensures pendingCompletions == old(pendingCompletions) + 1
    {
      isRecording := true;
      pendingCompletions := pendingCompletions + 1;
    }

    /** A scheduled completion fires: it fills in the simulated transcript and
        ends recording, whether or not recording was stopped meanwhile. */
    method CompleteRecording()
      requires pendingCompletions > 0
      modifies this
      ensures draft == VoiceTranscript && !isRecording
      ensures pendingCompletions == old(pendingCompletions) - 1
    {
      draft := VoiceTranscript;
      isRecording := false;
      pendingCompletions := pendingCompletions - 1;
    }

    /** `stopRecording`: ends recording, leaves the draft alone and does not
        cancel a scheduled completion. */
    method StopRecording()
      modifies this`isRecording
      ensures !isRecording
      ensures pendingCompletions == old(pendingCompletions)
    {
      isRecording := false;
    }
  }
}
