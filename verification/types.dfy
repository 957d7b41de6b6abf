/** The client's data model: transcript entries and the two model profiles. */
module Types {
  import opened Wrappers

  /** Who wrote an entry; there is no third kind. */
  datatype Role = User | Model

  /** Entry ids. The client draws random UUIDs; the model draws them from a
      counter, which makes "fresh and never reused" a visible fact. */
  type MessageId = nat

  /** A transcript entry. `isThinking` is an optional property: `None`
      stands for a message object that does not carry it at all. */
  datatype Message = Message(id: MessageId, role: Role, text: string, isThinking: Option<bool>)

  /** How every consumer reads the optional flag: absent counts as false. */
  predicate IsThinking(m: Message) {
    m.isThinking == Some(true)
  }

  /** The selectable profiles: a deep-reasoning tutor and a fast answerer. */
  datatype ModelType = Tutor | Fast {

    /** The enum's string value, which is also the remote model id. */
    function Id(): string {
      match this
      case Tutor => "gemini-3-pro-preview"
      case Fast => "gemini-2.5-flash-lite-latest"
    }
  }

  /** The two profiles name different remote models. */
  lemma ModelIdsDistinct(a: ModelType, b: ModelType)
    ensures a.Id() == b.Id() <==> a == b
  {
    if a != b {
      assert |a.Id()| != |b.Id()|;
    }
  }
}
