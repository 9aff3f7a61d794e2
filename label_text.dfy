/**
 * The empty-value fallbacks shared by both label renderers (the web label
 * card and the desktop label image): a QR code never receives an empty
 * payload, and an empty field is shown as a visible placeholder.
 */
module LabelText {

  /** The caption shown under a QR code whose field is still empty. */
  const Placeholder := "Aguardando..."

  /** The payload handed to the QR encoder for an empty field. */
  const BlankPayload := " "

  /** The string a QR code encodes for a field value (`value || ' '`). */
  function QrPayload(value: string): (payload: string)
    ensures payload != ""
    ensures value != "" ==> payload == value
  {
    if value == "" then BlankPayload else value
  }

  /** The text printed under a QR code for a field value (`value || 'Aguardando...'`). */
  function Caption(value: string): (caption: string)
    ensures caption != ""
    ensures value != "" ==> caption == value
  {
    if value == "" then Placeholder else value
  }

  /**
   * What a reader of a finished label can tell the field was: the QR payload,
   * unless payload and caption are exactly the two fallbacks together.
   */
  function Recover(payload: string, caption: string): string {
    if payload == BlankPayload && caption == Placeholder then "" else payload
  }

  /**
   * The two fallbacks together lose nothing: a field whose value is the blank
   * payload or the placeholder text is still told apart from an empty one,
   * because the other half of the pair differs.
   */
  lemma RecoverInverts(value: string)
    ensures Recover(QrPayload(value), Caption(value)) == value
  {
  }

  /** Hence two field values that render the same payload and caption are equal. */
  lemma FallbacksInjective(a: string, b: string)
    requires QrPayload(a) == QrPayload(b) && Caption(a) == Caption(b)
    ensures a == b
  {
    RecoverInverts(a);
    RecoverInverts(b);
  }
}
