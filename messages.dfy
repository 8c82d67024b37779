/** The in-memory record of one dialogue turn that the socket handler stores. */
module Messages {
  import opened Dicts

  /** A `datetime.datetime.utcnow()` reading; the clock is outside the model, so
      callers pass the reading in. */
  type Timestamp = int

  /** The role under which the handler stores turns spoken by the user. */
  const UserRole := "USER"

  /** `{"role", "message", "timestamp", "emotions"}`: the upper-cased role, the turn's text,
      when it was stored and its prosody scores (empty for text input). */
  datatype Message = Message(role: string, text: string, timestamp: Timestamp, emotions: Dict)
}
