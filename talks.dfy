/**
 * The value entities of the conference domain (`Talk`, `TalkType`) and the
 * mutable list of talks that `Conference` and `ConferenceDSL` keep.
 */
module Talks {
  import opened Wrappers

  /**
   * A `java.time.LocalDateTime`: a date and a time of day without a zone.
   * The model never inspects the fields and, like the source, does not validate them.
   */
  datatype LocalDateTime = LocalDateTime(
    year: int, month: int, day: int, hour: int, minute: int, second: int, nano: int)

  /**
   * `LocalDateTime.parse`, a library call outside this model. It is deterministic,
   * so it is a total function from text to an optional date-time: `None` stands for
   * the `DateTimeParseException` it throws on text that is not an ISO-8601 local
   * date-time.
   */
  type DateParser = string -> Option<LocalDateTime>

  /** The closed set of talk kinds. */
  datatype TalkType = Conference | Keynote

  /**
   * A scheduled presentation; structural equality, never mutated. The source's
   * `type` property is `kind` here (`type` is a Dafny keyword); it defaults to
   * `Conference` when a caller omits it.
   */
  datatype Talk = Talk(topic: string, speaker: string, time: LocalDateTime, kind: TalkType := TalkType.Conference)

  /** Omitting the kind when constructing a `Talk` gives a conference talk. */
  lemma TalkKindDefaultsToConference(topic: string, speaker: string, time: LocalDateTime)
    ensures Talk(topic, speaker, time).kind == TalkType.Conference
    ensures Talk(topic, speaker, time) == Talk(topic, speaker, time, TalkType.Conference)
  {
  }

  /**
   * A Kotlin `MutableList<Talk>` as made by `mutableListOf()`: an object whose
   * contents change in place, so two references to it see the same changes.
   */
  class MutableTalkList {
    var elems: seq<Talk>

    /** `mutableListOf<Talk>()`: a new, empty list. */
    constructor ()
      ensures elems == []
    {
      elems := [];
    }

    /** `add`: appends at the end; a list always accepts, so it reports `true`. */
    method Add(t: Talk) returns (added: bool)
      modifies this
      ensures elems == old(elems) + [t]
      ensures added
    {
      elems := elems + [t];
      added := true;
    }

    /** `toList()`: a read-only snapshot of the current contents. */
    function ToList(): seq<Talk>
      reads this
    {
      elems
    }
  }
}
