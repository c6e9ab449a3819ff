// A chat message: its kind, preview, and the scores and checks computed
// from its fields.

module ChatMessageModel {
  import opened Common

  /** The message kinds the chat code names. */
  datatype MessageType = Text | Image | File | VoiceNote | Video | Location | Contact | System

  /** The fields of a message the modelled checks read. */
  datatype ChatMessage = ChatMessage(
    kind: MessageType,
    content: Option<string>,
    systemMessage: bool,
    pinned: bool,
    edited: bool,
    reactions: Option<string>,
    replyToMessageId: Option<string>,
    readByCount: int,
    createdAt: Option<Time>)

  const PreviewLength: int := 100
  const PreviewKeep: int := 97
  const Ellipsis: string := "..."

  const SensitiveWords: seq<string> := ["password", "ssn", "credit card", "bank account"]

  /** isMediaMessage: IMAGE, FILE, VOICE_NOTE or VIDEO. */
  predicate IsMediaMessage(m: ChatMessage) {
    m.kind == Image || m.kind == File || m.kind == VoiceNote || m.kind == Video
  }

  /** isSystemMessage: flagged as a system message, or of type SYSTEM. */
  predicate IsSystemMessage(m: ChatMessage) {
    m.systemMessage || m.kind == System
  }

  /** getAgeInMinutes: whole minutes since creation, 0 without a creation time. */
  function AgeInMinutes(m: ChatMessage, now: Time): (r: int)
    ensures m.createdAt.None? ==> r == 0
    ensures m.createdAt.Some? && m.createdAt.value <= now ==>
              r >= 0 && r * SecondsPerMinute <= now - m.createdAt.value < (r + 1) * SecondsPerMinute
  {
    if m.createdAt.Some? then DurationIn(m.createdAt.value, now, SecondsPerMinute) else 0
  }

  /**
   * getContentPreview: "" without content, the content itself up to 100
   * UTF-16 units, else its first 97 units and "...".
   */
  function ContentPreview(content: Option<string>): (r: string)
    ensures Utf16Length(r) <= PreviewLength
    ensures content.None? ==> r == ""
    ensures content.Some? && Utf16Length(content.value) <= PreviewLength ==> r == content.value
    ensures content.Some? && Utf16Length(content.value) > PreviewLength ==>
              |r| >= |Ellipsis| && r[|r| - |Ellipsis|..] == Ellipsis
              && var kept := r[..|r| - |Ellipsis|];
                 |kept| < |content.value| && kept == content.value[..|kept|]
                 && Utf16Length(kept) <= PreviewKeep
                 && Utf16Length(kept) + Utf16Units(content.value[|kept|]) > PreviewKeep
  {
    if content.None? then ""
    else if Utf16Length(content.value) <= PreviewLength then content.value
    else
      var text := content.value;
      var kept := Utf16Prefix(text, PreviewKeep);
      Utf16LengthConcat(kept, Ellipsis);
      assert Utf16Length(Ellipsis) == 3;
      assert |kept| == |text| ==> kept == text;
      assert (kept + Ellipsis)[..|kept|] == kept;
      assert (kept + Ellipsis)[|kept|..] == Ellipsis;
      kept + Ellipsis
  }

  /** On text in the Basic Multilingual Plane a long preview is the first 97 characters and "...". */
  lemma PreviewOfBmpText(content: string)
    requires AllBmp(content) && |content| > PreviewLength
    ensures ContentPreview(Some(content)) == content[..PreviewKeep] + Ellipsis
  {
    Utf16PrefixOfBmp(content, PreviewKeep);
  }

  /**
   * getPriorityScore: 1, +10 for a system message, +5 for media, +8 when
   * pinned, +3 when under 5 minutes old.
   */
  function PriorityScore(m: ChatMessage, now: Time): (r: int)
    ensures 1 <= r <= 27
    ensures IsSystemMessage(m) ==> r >= 11
    ensures !IsSystemMessage(m) ==> r <= 17
  {
    1 + (if IsSystemMessage(m) then 10 else 0) + (if IsMediaMessage(m) then 5 else 0)
      + (if m.pinned then 8 else 0) + (if AgeInMinutes(m, now) < 5 then 3 else 0)
  }

  /**
   * getEngagementScore: twice the read count up to 50, +10 for non-blank
   * reactions, +15 for media, +5 for a reply, capped at 100.
   */
  function EngagementScore(m: ChatMessage): (r: int)
    ensures r <= 80
    ensures m.readByCount >= 0 ==> 0 <= r
    ensures m.readByCount >= 25 ==> r >= 50
  {
    var s := Min(50, m.readByCount * 2)
             + (if m.reactions.Some? && !IsBlank(m.reactions.value) then 10 else 0)
             + (if IsMediaMessage(m) then 15 else 0)
             + (if m.replyToMessageId.Some? then 5 else 0);
    Min(100, s)
  }

  /** shouldTriggerNotification: not a system message, not edited, and at most 60 minutes old. */
  function ShouldTriggerNotification(m: ChatMessage, now: Time): (r: bool)
    ensures IsSystemMessage(m) ==> !r
    ensures m.edited ==> !r
    ensures r <==> !IsSystemMessage(m) && !m.edited && AgeInMinutes(m, now) <= 60
  {
    if IsSystemMessage(m) then false
    else if m.edited then false
    else if AgeInMinutes(m, now) > 60 then false
    else true
  }

  /** containsSensitiveContent: the lower-cased content contains one of the listed words. */
  function ContainsSensitiveContent(content: Option<string>): (r: bool)
    ensures content.None? ==> !r
    ensures r <==> content.Some? && exists i :: 0 <= i < |SensitiveWords| && Contains(LowerAscii(content.value), SensitiveWords[i])
  {
    content.Some? && AnyContained(LowerAscii(content.value), SensitiveWords)
  }

  /** The source's loop over the word list, as a predicate. */
  function AnyContained(s: string, words: seq<string>): (r: bool)
    ensures r <==> exists i :: 0 <= i < |words| && Contains(s, words[i])
    decreases |words|
  {
    if words == [] then false
    else
      assert forall i :: 1 <= i < |words| ==> words[i] == words[1..][i - 1];
      Contains(s, words[0]) || AnyContained(s, words[1..])
  }
}
