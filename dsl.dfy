/**
 * The two-level builder: `ConferenceDSL` (name, location, the talk list) and its
 * inner scope `TalkConfigDSL` (the talk-adding operations), the staged talk
 * chain, and the `conference(...)` entry point.
 *
 * A configuration block is a sequence of `Command` values; `ConferenceDSL.Run`
 * executes one and is proved against the pure function `Exec`.
 */
module Dsl {
  import opened Wrappers
  import opened Talks
  import opened Conferences

  /** What a configuration or the entry point can throw. */
  datatype Error =
    | ParseError(text: string)               // DateTimeParseException from LocalDateTime.parse
    | UninitializedProperty(property: string) // UninitializedPropertyAccessException on a lateinit read

  // ---------------------------------------------------------------------------
  // The staged chain: throw-away values that force type, name, speaker, date.

  /** Stage 0: only the talk kind is chosen. */
  datatype EmptyTalk = EmptyTalk(kind: TalkType) {
    /** `named`: supplies the topic. */
    function Named(name: string): (r: NamedTalk)
      ensures forall speaker: string, time: LocalDateTime {:trigger r.By(speaker).Assemble(time)} ::
        r.By(speaker).Assemble(time).topic == name && r.By(speaker).Assemble(time).kind == kind
    {
      NamedTalk(this, name)
    }
  }

  /** Stage 1: stage 0 plus the topic. */
  datatype NamedTalk = NamedTalk(previous: EmptyTalk, talkName: string) {
    /** `by`: supplies the speaker. */
    function By(speaker: string): (r: NamedAndAuthoredTalk)
      ensures forall time: LocalDateTime {:trigger r.Assemble(time)} ::
        r.Assemble(time) == Talk(talkName, speaker, time, previous.kind)
    {
      NamedAndAuthoredTalk(this, speaker)
    }
  }

  /** Stage 2: stage 1 plus the speaker; only `at` remains. */
  datatype NamedAndAuthoredTalk = NamedAndAuthoredTalk(previous: NamedTalk, speaker: string) {
    /** Re-assembles the whole talk from the chain once the time is known. */
    function Assemble(time: LocalDateTime): (t: Talk)
      ensures t.topic == previous.talkName && t.speaker == speaker
      ensures t.time == time && t.kind == previous.previous.kind
    {
      Talk(previous.talkName, speaker, time, previous.previous.kind)
    }
  }

  /** Every field of the assembled talk comes from the stage that supplied it. */
  lemma ChainAssembles(kind: TalkType, name: string, speaker: string, time: LocalDateTime)
    ensures EmptyTalk(kind).Named(name).By(speaker).Assemble(time) == Talk(name, speaker, time, kind)
  {
  }

  // ---------------------------------------------------------------------------
  // Configuration blocks as data.

  /**
   * One statement of a configuration block. The source's `@DslMarker` is
   * commented out, so inside `talks { }` the outer receiver stays in scope and
   * `name`/`location` may be assigned there as well; at the outer level the talk
   * operations are reached as `talks.conferenceTalk(...)`. Every command is
   * therefore allowed at every depth.
   */
  datatype Command =
    | SetName(name: string)                                           // name = ...
    | SetLocation(location: string)                                   // location = ...
    | TalksBlock(body: seq<Command>)                                  // talks { body }
    | ConferenceTalk(topic: string, speaker: string, time: LocalDateTime) // conferenceTalk(topic, speaker, time)
    | KeynoteTalk(topic: string, speaker: string, time: LocalDateTime)    // keynoteTalk(topic, speaker, time)
    | TalkAt(stage: NamedAndAuthoredTalk, date: string)               // <stage> at date
    | Insert(talk: Talk)                                              // +talk

  /** The builder's observable state: the two `lateinit` properties and the shared list. */
  datatype Builder = Builder(name: Option<string>, location: Option<string>, talks: seq<Talk>)

  /** The state after running commands, and the error that stopped them, if any. */
  datatype Outcome = Outcome(state: Builder, failure: Option<Error>)

  /** The effect of one command that is not a block. */
  function Step(c: Command, st: Builder, parse: DateParser): Outcome
    requires !c.TalksBlock?
  {
    match c
    case SetName(n) => Outcome(st.(name := Some(n)), None)
    case SetLocation(l) => Outcome(st.(location := Some(l)), None)
    case ConferenceTalk(topic, speaker, time) =>
      Outcome(st.(talks := st.talks + [Talk(topic, speaker, time, TalkType.Conference)]), None)
    case KeynoteTalk(topic, speaker, time) =>
      Outcome(st.(talks := st.talks + [Talk(topic, speaker, time, TalkType.Keynote)]), None)
    case TalkAt(stage, date) =>
      (match parse(date)
       case None => Outcome(st, Some(ParseError(date)))
       case Some(time) => Outcome(st.(talks := st.talks + [stage.Assemble(time)]), None))
    case Insert(t) => Outcome(st.(talks := st.talks + [t]), None)
  }

  /**
   * Runs a block: commands in order, a nested block on the very same state, and
   * the first error aborts the rest (an unchecked exception propagating).
   */
  function Exec(cmds: seq<Command>, st: Builder, parse: DateParser): (o: Outcome)
    // only a date can fail while a block runs; unassigned properties surface later
    ensures o.failure.Some? ==> o.failure.value.ParseError?
    // a `lateinit` property, once assigned, stays assigned
    ensures st.name.Some? ==> o.state.name.Some?
    ensures st.location.Some? ==> o.state.location.Some?
    // the talk list only grows at its end
    ensures |st.talks| <= |o.state.talks| && o.state.talks[..|st.talks|] == st.talks
    decreases cmds
  {
    if cmds == [] then Outcome(st, None)
    else
      var o := if cmds[0].TalksBlock? then Exec(cmds[0].body, st, parse) else Step(cmds[0], st, parse);
      if o.failure.Some? then o else Exec(cmds[1..], o.state, parse)
  }

  // ---------------------------------------------------------------------------
  // The builder objects.

  /** `TalkConfigDSL`: the inner scope. */
  class TalkConfig {
    /** `_talkList`: the outer builder's list itself, not a copy. */
    const store: MutableTalkList

    /** Created by the outer builder, handing over its own list. */
    constructor (outerList: MutableTalkList)
      ensures store == outerList
    {
      store := outerList;
    }

    /** The direct factory `conferenceTalk(topic, speaker, time)`. */
    method ConferenceTalk(topic: string, speaker: string, time: LocalDateTime)
      modifies store
      ensures store.elems == old(store.elems) + [Talk(topic, speaker, time, TalkType.Conference)]
    {
      var _ := store.Add(Talk(topic, speaker, time, TalkType.Conference));
    }

    /** The direct factory `keynoteTalk(topic, speaker, time)`. */
    method KeynoteTalk(topic: string, speaker: string, time: LocalDateTime)
      modifies store
      ensures store.elems == old(store.elems) + [Talk(topic, speaker, time, TalkType.Keynote)]
    {
      var _ := store.Add(Talk(topic, speaker, time, TalkType.Keynote));
    }

    /** The `conferenceTalk` getter: starts a chain for a conference talk. */
    function EmptyConferenceTalk(): (e: EmptyTalk)
      ensures forall name: string, speaker: string, time: LocalDateTime
        {:trigger e.Named(name).By(speaker).Assemble(time)} ::
        e.Named(name).By(speaker).Assemble(time) == Talk(name, speaker, time, TalkType.Conference)
    {
      EmptyTalk(TalkType.Conference)
    }

    /** The `keynoteTalk` getter: starts a chain for a keynote. */
    function EmptyKeynoteTalk(): (e: EmptyTalk)
      ensures forall name: string, speaker: string, time: LocalDateTime
        {:trigger e.Named(name).By(speaker).Assemble(time)} ::
        e.Named(name).By(speaker).Assemble(time) == Talk(name, speaker, time, TalkType.Keynote)
    {
      EmptyTalk(TalkType.Keynote)
    }

    /**
     * `NamedAndAuthoredTalk.at(date)`: parses the date first, and only then
     * appends, so a failed parse leaves the list as it was. On success it
     * returns what `add` returned.
     */
    method At(stage: NamedAndAuthoredTalk, date: string, parse: DateParser) returns (r: Result<bool, Error>)
      modifies store
      ensures parse(date).None? ==> r == Failure(ParseError(date)) && store.elems == old(store.elems)
      ensures parse(date).Some? ==>
        r == Success(true) && store.elems == old(store.elems) + [stage.Assemble(parse(date).value)]
    {
      match parse(date) {
        case None =>
          r := Failure(ParseError(date));
        case Some(time) =>
          var added := store.Add(stage.Assemble(time));
          r := Success(added);
      }
    }

    /** `+talk`: appends the given talk unchanged and returns what `add` returned. */
    method UnaryPlus(t: Talk) returns (added: bool)
      modifies store
      ensures store.elems == old(store.elems) + [t] && added
    {
      added := store.Add(t);
    }
  }

  /** `ConferenceDSL`: the outer builder. */
  class ConferenceDSL {
    /** Recorded at creation; nothing reads it. */
    const isImportant: bool
    /** The private `_talkList`. */
    const talkStore: MutableTalkList
    /** `lateinit var name`: `None` until assigned. */
    var name: Option<string>
    /** `lateinit var location`: `None` until assigned. */
    var location: Option<string>
    /** The inner scope, `val talks = TalkConfigDSL()`. */
    const talks: TalkConfig

    /** The inner scope writes to this builder's own list. */
    ghost predicate Valid()
      reads this
    {
      talks.store == talkStore
    }

    constructor (isImportant: bool)
      ensures Valid()
      ensures this.isImportant == isImportant && name == None && location == None
      ensures fresh(talkStore) && fresh(talks) && talkStore.elems == []
    {
      this.isImportant := isImportant;
      var list := new MutableTalkList();
      talkStore := list;
      talks := new TalkConfig(list);
      name := None;
      location := None;
    }

    /** The `talkList` getter: a snapshot copy of the shared list. */
    function TalkList(): (r: seq<Talk>)
      reads this, talkStore
      ensures r == State().talks
    {
      talkStore.ToList()
    }

    /** The abstract state that `Exec` speaks about. */
    function State(): Builder
      reads this, talkStore
    {
      Builder(name, location, talkStore.elems)
    }

    /** Reading `name`: throws while it was never assigned. */
    method GetName() returns (r: Result<string, Error>)
      ensures r.Success? <==> name.Some?
      ensures r.Success? ==> name == Some(r.value)
      ensures r.Failure? ==> r.error == UninitializedProperty("name")
    {
      if name.Some? {
        r := Success(name.value);
      } else {
        r := Failure(UninitializedProperty("name"));
      }
    }

    /** Reading `location`: throws while it was never assigned. */
    method GetLocation() returns (r: Result<string, Error>)
      ensures r.Success? <==> location.Some?
      ensures r.Success? ==> location == Some(r.value)
      ensures r.Failure? ==> r.error == UninitializedProperty("location")
    {
      if location.Some? {
        r := Success(location.value);
      } else {
        r := Failure(UninitializedProperty("location"));
      }
    }

    /**
     * Runs a configuration block with this builder as receiver (`apply(config)`;
     * for a nested `talks { body }`, `TalkConfigDSL.invoke`, which runs `body` on
     * the same objects). Talk commands go to the inner scope `talks`, whose
     * list is this builder's list.
     */
    method Run(cmds: seq<Command>, parse: DateParser) returns (failure: Option<Error>)
      requires Valid()
      modifies this, talkStore
      ensures Valid()
      ensures State() == Exec(cmds, old(State()), parse).state
      ensures failure == Exec(cmds, old(State()), parse).failure
      decreases cmds
    {
      var i := 0;
      while i < |cmds|
        invariant 0 <= i <= |cmds|
        invariant Valid()
        invariant Exec(cmds, old(State()), parse) == Exec(cmds[i..], State(), parse)
        decreases |cmds| - i
      {
        assert cmds[i..][1..] == cmds[i + 1..];
        ghost var before := State();
        var f: Option<Error> := None;
        match cmds[i] {
          case SetName(n) =>
            name := Some(n);
          case SetLocation(l) =>
            location := Some(l);
          case TalksBlock(body) =>
            assert cmds[i] in cmds;
            f := Run(body, parse);
          case ConferenceTalk(topic, speaker, time) =>
            talks.ConferenceTalk(topic, speaker, time);
          case KeynoteTalk(topic, speaker, time) =>
            talks.KeynoteTalk(topic, speaker, time);
          case TalkAt(stage, date) =>
            var r := talks.At(stage, date, parse);
            if r.Failure? {
              f := Some(r.error);
            }
          case Insert(t) =>
            var _ := talks.UnaryPlus(t);
        }
        if f.Some? {
          return f;
        }
        i := i + 1;
      }
      assert cmds[i..] == [];
      failure := None;
    }
  }

  /**
   * The inner scope holds the outer builder's list by reference: a talk added
   * through `talks` is seen at once by the outer builder's `talkList`.
   */
  method AddThroughInnerScope(dsl: ConferenceDSL, t: Talk)
    requires dsl.Valid()
    modifies dsl.talkStore
    ensures dsl.TalkList() == old(dsl.TalkList()) + [t]
    ensures dsl.name == old(dsl.name) && dsl.location == old(dsl.location)
  {
    var _ := dsl.talks.UnaryPlus(t);
  }

  // ---------------------------------------------------------------------------
  // The entry point.

  /** What a successful `conference(...)` yields, as a value. */
  datatype ConferenceValue = ConferenceValue(name: string, location: string, talks: seq<Talk>)

  /**
   * `conference(isImportant) { config }` as a function: run the block on a fresh
   * builder, then read `name` (first) and `location`, then copy the talks.
   */
  function BuildSpec(config: seq<Command>, parse: DateParser): Result<ConferenceValue, Error> {
    var o := Exec(config, Builder(None, None, []), parse);
    if o.failure.Some? then Failure(o.failure.value)
    else if o.state.name.None? then Failure(UninitializedProperty("name"))
    else if o.state.location.None? then Failure(UninitializedProperty("location"))
    else Success(ConferenceValue(o.state.name.value, o.state.location.value, o.state.talks))
  }

  /** The entry point `conference(isImportant, config)`. */
  method BuildConference(isImportant: bool, config: seq<Command>, parse: DateParser)
    returns (r: Result<Conference, Error>)
    ensures BuildSpec(config, parse).Failure? ==> r == Failure(BuildSpec(config, parse).error)
    ensures BuildSpec(config, parse).Success? ==>
      r.Success? && fresh(r.value) && fresh(r.value.schedule)
      && r.value.name == BuildSpec(config, parse).value.name
      && r.value.location == BuildSpec(config, parse).value.location
      && r.value.Talks() == BuildSpec(config, parse).value.talks
  {
    var dsl := new ConferenceDSL(isImportant);
    var failure := dsl.Run(config, parse);
    if failure.Some? {
      return Failure(failure.value);
    }
    var name := dsl.GetName();
    if name.Failure? {
      return Failure(name.error);
    }
    var location := dsl.GetLocation();
    if location.Failure? {
      return Failure(location.error);
    }
    var c := new Conference(name.value, location.value);
    var list := dsl.TalkList();
    // copy the builder's talks into the conference, one AddTalk per talk, in order
    var i := 0;
    while i < |list|
      invariant 0 <= i <= |list|
      invariant fresh(c.schedule)
      invariant c.schedule.elems == list[..i]
    {
      c.AddTalk(list[i]);
      i := i + 1;
    }
    assert list[..i] == list;
    return Success(c);
  }
}
