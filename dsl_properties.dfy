/**
 * What the builder guarantees, stated about `Exec` and `BuildSpec`: running
 * commands only appends, nested `talks { }` blocks land in the one shared list
 * in execution order, a failed parse stops everything and adds nothing, and
 * `conference(...)` fails exactly when a parse fails or a property was never
 * assigned.
 */
module DslProperties {
  import opened Wrappers
  import opened Talks
  import opened Dsl

  /** No command is a nested block. */
  predicate IsFlat(cmds: seq<Command>) {
    forall j :: 0 <= j < |cmds| ==> !cmds[j].TalksBlock?
  }

  /** Every nested block replaced, in place, by its own commands. */
  function Flatten(cmds: seq<Command>): (r: seq<Command>)
    ensures IsFlat(r)
    decreases cmds
  {
    if cmds == [] then []
    else (if cmds[0].TalksBlock? then Flatten(cmds[0].body) else [cmds[0]]) + Flatten(cmds[1..])
  }

  /** The command throws: a staged `at` whose date does not parse. */
  predicate Fails(c: Command, parse: DateParser) {
    c.TalkAt? && parse(c.date).None?
  }

  /** The index of the first command that throws, or the length when none does. */
  function FirstFailure(cmds: seq<Command>, parse: DateParser): (k: nat)
    ensures k <= |cmds|
    ensures forall j :: 0 <= j < k ==> !Fails(cmds[j], parse)
    ensures k < |cmds| ==> Fails(cmds[k], parse)
  {
    if cmds == [] || Fails(cmds[0], parse) then 0 else 1 + FirstFailure(cmds[1..], parse)
  }

  /** The talks that one command, run without throwing, appends. */
  function Emitted(c: Command, parse: DateParser): seq<Talk> {
    match c
    case ConferenceTalk(topic, speaker, time) => [Talk(topic, speaker, time, TalkType.Conference)]
    case KeynoteTalk(topic, speaker, time) => [Talk(topic, speaker, time, TalkType.Keynote)]
    case TalkAt(stage, date) => if parse(date).Some? then [stage.Assemble(parse(date).value)] else []
    case Insert(t) => [t]
    case _ => []
  }

  /** The talks a run of commands appends, in order, duplicates included. */
  function Produced(cmds: seq<Command>, parse: DateParser): seq<Talk> {
    if cmds == [] then [] else Emitted(cmds[0], parse) + Produced(cmds[1..], parse)
  }

  /** The value of `name` after the commands: the last assignment, else `init`. */
  function LastName(cmds: seq<Command>, init: Option<string>): Option<string> {
    if cmds == [] then init
    else LastName(cmds[1..], if cmds[0].SetName? then Some(cmds[0].name) else init)
  }

  /** The value of `location` after the commands: the last assignment, else `init`. */
  function LastLocation(cmds: seq<Command>, init: Option<string>): Option<string> {
    if cmds == [] then init
    else LastLocation(cmds[1..], if cmds[0].SetLocation? then Some(cmds[0].location) else init)
  }

  /**
   * The outcome of flat commands, read off directly: everything before the
   * first failing command takes effect, and that command's date is the error.
   */
  function Closed(flat: seq<Command>, st: Builder, parse: DateParser): Outcome {
    var k := FirstFailure(flat, parse);
    var done := flat[..k];
    Outcome(
      Builder(LastName(done, st.name), LastLocation(done, st.location), st.talks + Produced(done, parse)),
      if k < |flat| then Some(ParseError(flat[k].date)) else None)
  }

  /** Continue with `rest` unless `o` already failed. */
  function Then(o: Outcome, rest: seq<Command>, parse: DateParser): Outcome {
    if o.failure.Some? then o else Exec(rest, o.state, parse)
  }

  /** Running `a + b` is running `a`, then `b` on its state unless `a` threw. */
  lemma {:induction false} ExecConcat(a: seq<Command>, b: seq<Command>, st: Builder, parse: DateParser)
    ensures Exec(a + b, st, parse) == Then(Exec(a, st, parse), b, parse)
    decreases a
  {
    if a == [] {
      assert a + b == b;
    } else {
      assert (a + b)[0] == a[0];
      assert (a + b)[1..] == a[1..] + b;
      var o := if a[0].TalksBlock? then Exec(a[0].body, st, parse) else Step(a[0], st, parse);
      if o.failure.None? {
        ExecConcat(a[1..], b, o.state, parse);
      }
    }
  }

  /**
   * `talks { body }` runs `body` on the same builder, at any depth: a run with
   * every block flattened has exactly the same outcome.
   */
  lemma {:induction false} ExecFlatten(cmds: seq<Command>, st: Builder, parse: DateParser)
    ensures Exec(cmds, st, parse) == Exec(Flatten(cmds), st, parse)
    decreases cmds
  {
    if cmds != [] {
      var head := if cmds[0].TalksBlock? then Flatten(cmds[0].body) else [cmds[0]];
      ExecConcat(head, Flatten(cmds[1..]), st, parse);
      var o := if cmds[0].TalksBlock? then Exec(cmds[0].body, st, parse) else Step(cmds[0], st, parse);
      if cmds[0].TalksBlock? {
        assert cmds[0] in cmds;
        ExecFlatten(cmds[0].body, st, parse);
      } else {
        assert head[1..] == [];
      }
      if o.failure.None? {
        ExecFlatten(cmds[1..], o.state, parse);
      }
    }
  }

  /** On flat commands `Exec` agrees with the closed form. */
  lemma {:induction false} ExecFlatClosed(flat: seq<Command>, st: Builder, parse: DateParser)
    requires IsFlat(flat)
    ensures Exec(flat, st, parse) == Closed(flat, st, parse)
    decreases flat
  {
    if flat != [] {
      var c := flat[0];
      assert !c.TalksBlock?;
      if !Fails(c, parse) {
        var o := Step(c, st, parse);
        var k := FirstFailure(flat, parse);
        var rest := flat[1..];
        assert IsFlat(rest) by {
          forall j | 0 <= j < |rest| ensures !rest[j].TalksBlock? {
            assert rest[j] == flat[j + 1];
          }
        }
        ExecFlatClosed(rest, o.state, parse);
        assert flat[..k][0] == c;
        assert flat[..k][1..] == rest[..k - 1];
        assert o.state.talks == st.talks + Emitted(c, parse);
        assert st.talks + Produced(flat[..k], parse)
            == o.state.talks + Produced(rest[..k - 1], parse);
      }
    }
  }

  /**
   * The closed form of any configuration run: the name and location last
   * assigned and the talks produced, at every nesting depth, in execution order,
   * up to the first date that does not parse; that failure is the error.
   */
  lemma ExecClosedForm(cmds: seq<Command>, st: Builder, parse: DateParser)
    ensures Exec(cmds, st, parse) == Closed(Flatten(cmds), st, parse)
  {
    ExecFlatten(cmds, st, parse);
    ExecFlatClosed(Flatten(cmds), st, parse);
  }

  /**
   * Running commands only appends to the talk list: earlier entries stay, at
   * their positions.
   */
  lemma ExecAppendOnly(cmds: seq<Command>, st: Builder, parse: DateParser)
    ensures |st.talks| <= |Exec(cmds, st, parse).state.talks|
    ensures Exec(cmds, st, parse).state.talks[..|st.talks|] == st.talks
  {
    // immediate from the contract of `Exec`
  }

  /** A run throws exactly when some command, at any depth, has a date that does not parse. */
  lemma ExecFailsIff(cmds: seq<Command>, st: Builder, parse: DateParser)
    ensures Exec(cmds, st, parse).failure.Some? <==>
      exists j :: 0 <= j < |Flatten(cmds)| && Fails(Flatten(cmds)[j], parse)
  {
    ExecClosedForm(cmds, st, parse);
  }

  /** A nested `talks { }` adds nothing of its own: `talks { body }; rest` runs as `body; rest`. */
  lemma NestedBlockTransparent(body: seq<Command>, rest: seq<Command>, st: Builder, parse: DateParser)
    ensures Exec([TalksBlock(body)] + rest, st, parse) == Exec(body + rest, st, parse)
  {
    ExecConcat([TalksBlock(body)], rest, st, parse);
    ExecConcat(body, rest, st, parse);
    assert [TalksBlock(body)][1..] == [];
  }

  /** The direct factory of a kind, as a command. */
  function Factory(kind: TalkType, topic: string, speaker: string, time: LocalDateTime): Command {
    match kind
    case Conference => ConferenceTalk(topic, speaker, time)
    case Keynote => KeynoteTalk(topic, speaker, time)
  }

  /** The getter of the inner scope that starts a chain of the given kind. */
  function ChainStart(tc: TalkConfig, kind: TalkType): EmptyTalk {
    match kind
    case Conference => tc.EmptyConferenceTalk()
    case Keynote => tc.EmptyKeynoteTalk()
  }

  /**
   * `<kind> named n by s at d`, started from the inner scope's `conferenceTalk`
   * or `keynoteTalk` getter, appends what the direct factory of that kind
   * appends with the parsed date, and what `+Talk(n, s, time, kind)` appends;
   * when `d` does not parse it throws and the state is unchanged.
   */
  lemma StagedMatchesFactory(tc: TalkConfig, kind: TalkType, n: string, s: string, d: string, st: Builder, parse: DateParser)
    ensures parse(d).Some? ==>
      Exec([TalkAt(ChainStart(tc, kind).Named(n).By(s), d)], st, parse)
        == Exec([Factory(kind, n, s, parse(d).value)], st, parse)
      && Exec([TalkAt(ChainStart(tc, kind).Named(n).By(s), d)], st, parse)
        == Exec([Insert(Talk(n, s, parse(d).value, kind))], st, parse)
      && Exec([TalkAt(ChainStart(tc, kind).Named(n).By(s), d)], st, parse)
        == Outcome(st.(talks := st.talks + [Talk(n, s, parse(d).value, kind)]), None)
    ensures parse(d).None? ==>
      Exec([TalkAt(ChainStart(tc, kind).Named(n).By(s), d)], st, parse) == Outcome(st, Some(ParseError(d)))
  {
    var stage := ChainStart(tc, kind).Named(n).By(s);
    ExecSingle(TalkAt(stage, d), st, parse);
    if parse(d).Some? {
      var time := parse(d).value;
      assert stage.Assemble(time) == Talk(n, s, time, kind);
      ExecSingle(Factory(kind, n, s, time), st, parse);
      ExecSingle(Insert(Talk(n, s, time, kind)), st, parse);
    }
  }

  /** A one-command run is that command's step. */
  lemma ExecSingle(c: Command, st: Builder, parse: DateParser)
    requires !c.TalksBlock?
    ensures Exec([c], st, parse) == Step(c, st, parse)
  {
    assert [c][1..] == [];
  }

  /**
   * `conference(...)` succeeds exactly when no date fails to parse and both
   * properties were assigned; it then carries the last assigned name and
   * location and every produced talk in order. Otherwise the error is the
   * first failing date, else the missing `name`, else the missing `location`.
   */
  lemma BuildSpecCharacterized(config: seq<Command>, parse: DateParser)
    ensures var flat := Flatten(config);
      var k := FirstFailure(flat, parse);
      BuildSpec(config, parse) ==
        if k < |flat| then Failure(ParseError(flat[k].date))
        else if LastName(flat, None).None? then Failure(UninitializedProperty("name"))
        else if LastLocation(flat, None).None? then Failure(UninitializedProperty("location"))
        else Success(ConferenceValue(LastName(flat, None).value, LastLocation(flat, None).value, Produced(flat, parse)))
  {
    var flat := Flatten(config);
    var empty := Builder(None, None, []);
    ExecClosedForm(config, empty, parse);
    if FirstFailure(flat, parse) == |flat| {
      assert flat[..|flat|] == flat;
      var o := Exec(config, empty, parse);
      assert o.state == Builder(LastName(flat, None), LastLocation(flat, None), [] + Produced(flat, parse));
      assert [] + Produced(flat, parse) == Produced(flat, parse);
    }
  }

  /** `conference(...)` without any `name = ...` fails on reading `name`, unless a date failed first. */
  lemma BuildFailsWithoutName(config: seq<Command>, parse: DateParser)
    requires forall j :: 0 <= j < |Flatten(config)| ==> !Flatten(config)[j].SetName?
    requires forall j :: 0 <= j < |Flatten(config)| ==> !Fails(Flatten(config)[j], parse)
    ensures BuildSpec(config, parse) == Failure(UninitializedProperty("name"))
  {
    BuildSpecCharacterized(config, parse);
    NoSetNameKeeps(Flatten(config), None);
  }

  /**
   * `conference(...)` whose configuration assigns `name` but never `location`,
   * and whose dates all parse, fails on reading `location`.
   */
  lemma BuildFailsWithoutLocation(config: seq<Command>, parse: DateParser)
    requires exists j :: 0 <= j < |Flatten(config)| && Flatten(config)[j].SetName?
    requires forall j :: 0 <= j < |Flatten(config)| ==> !Flatten(config)[j].SetLocation?
    requires forall j :: 0 <= j < |Flatten(config)| ==> !Fails(Flatten(config)[j], parse)
    ensures BuildSpec(config, parse) == Failure(UninitializedProperty("location"))
  {
    BuildSpecCharacterized(config, parse);
    NoSetLocationKeeps(Flatten(config), None);
    SetNameAssigns(Flatten(config), None);
  }

  /** Without an assignment, `location` keeps its initial value. */
  lemma {:induction false} NoSetLocationKeeps(cmds: seq<Command>, init: Option<string>)
    requires forall j :: 0 <= j < |cmds| ==> !cmds[j].SetLocation?
    ensures LastLocation(cmds, init) == init
    decreases cmds
  {
    if cmds != [] {
      assert !cmds[0].SetLocation?;
      NoSetLocationKeeps(cmds[1..], init);
    }
  }

  /** After some assignment to `name`, it has a value. */
  lemma {:induction false} SetNameAssigns(cmds: seq<Command>, init: Option<string>)
    requires exists j :: 0 <= j < |cmds| && cmds[j].SetName?
    ensures LastName(cmds, init).Some?
    decreases cmds
  {
    var next := if cmds[0].SetName? then Some(cmds[0].name) else init;
    if cmds[0].SetName? {
      NameStaysAssigned(cmds[1..], next);
    } else {
      var j :| 0 <= j < |cmds| && cmds[j].SetName?;
      assert cmds[1..][j - 1].SetName?;
      SetNameAssigns(cmds[1..], next);
    }
  }

  /** Once `name` has a value, later commands can only replace it. */
  lemma {:induction false} NameStaysAssigned(cmds: seq<Command>, init: Option<string>)
    requires init.Some?
    ensures LastName(cmds, init).Some?
    decreases cmds
  {
    if cmds != [] {
      NameStaysAssigned(cmds[1..], if cmds[0].SetName? then Some(cmds[0].name) else init);
    }
  }

  /** Without an assignment, `name` keeps its initial value. */
  lemma {:induction false} NoSetNameKeeps(cmds: seq<Command>, init: Option<string>)
    requires forall j :: 0 <= j < |cmds| ==> !cmds[j].SetName?
    ensures LastName(cmds, init) == init
    decreases cmds
  {
    if cmds != [] {
      assert !cmds[0].SetName?;
      NoSetNameKeeps(cmds[1..], init);
    }
  }
}
