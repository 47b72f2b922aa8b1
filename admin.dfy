/** The chat-message list of the admin site: `ChatMessageAdmin.message_short`. */
module Admin {

  const ShortLength: nat := 75
  const Ellipsis: string := "..."

  /**
   * A message of at most 75 characters is shown whole; a longer one as its
   * first 75 characters followed by "...".
   */
  function MessageShort(message: string): (r: string)
    ensures |message| <= ShortLength ==> r == message
    ensures |message| > ShortLength ==>
              |r| == ShortLength + |Ellipsis| && r[..ShortLength] == message[..ShortLength] &&
              r[ShortLength..] == Ellipsis
    ensures |r| <= ShortLength + |Ellipsis|
  {
    if |message| > ShortLength then message[..ShortLength] + Ellipsis else message
  }

  /** Shortening a shortened message changes nothing. */
  lemma MessageShortIdempotent(message: string)
    ensures MessageShort(MessageShort(message)) == MessageShort(message)
  {
    var r := MessageShort(message);
    if |message| > ShortLength {
      assert r[..ShortLength] + Ellipsis == r;
    }
  }
}
