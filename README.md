# Conference DSL builder — a Dafny model

This project models the Kotlin DSL for building a conference schedule (`Conference.kt`). The model has four parts:

- **The values.** `Talk` and `TalkType`.
- **The mutable containers.** `Conference` with its private `schedule`, and the outer builder `ConferenceDSL`. The builder has the `lateinit` properties `name` and `location` and a private talk list.
- **The inner scope `TalkConfigDSL`.** It shares the outer builder's list by reference. It offers three ways to append a talk: the direct factories, the staged chain `EmptyTalk → NamedTalk → NamedAndAuthoredTalk → at`, and `+talk`.
- **The entry point `conference(isImportant) { … }`.**

## How the model is built

- A Kotlin `MutableList<Talk>` is the class `Talks.MutableTalkList`, with a `seq<Talk>` field.
- The private lists are objects. That is how the model can express two things: the inner scope writes to the outer builder's own list (`ConferenceDSL.Valid()`), and the `talkList`/`talks` getters hand out snapshots (`seq` values) that later appends cannot change.
- The `lateinit` properties are `Option<string>` fields. Reading one that was never assigned returns `Failure(UninitializedProperty(..))`.
- A configuration lambda is a sequence of `Command` values.
  - `ConferenceDSL.Run` executes one, dispatching talk commands to the inner scope object.
  - `Run` is proved equal to the pure function `Dsl.Exec`.
  - `TalksBlock(body)` is `talks { body }`. `TalkConfigDSL.invoke` only applies `body` to the same object, so `Run` and `Exec` run `body` on the same builder.
- The entry point `Dsl.BuildConference` is proved against the function `Dsl.BuildSpec`. The module `DslProperties` then proves the following about `Exec` and `BuildSpec`:
  - a closed form of the outcome;
  - nested blocks disappear under flattening;
  - runs only append;
  - a run fails exactly when some date does not parse;
  - the staged chain is equivalent to the direct factory and to `+talk`;
  - the success and error cases of `conference(...)`.
- `LocalDateTime.parse` is a parameter `parse: string -> Option<LocalDateTime>` (`Talks.DateParser`); `None` stands for `DateTimeParseException`. Kotlin exceptions are values of `Dsl.Error`.
- Kotlin's `type` field is named `kind` here, because `type` is a Dafny keyword.

### Notes on the source

- `@DslMarker` is commented out (`Conference.kt:21`). So inside `talks { }` the outer receiver stays in scope, and `name = …` and `location = …` are legal there too.
- At the outer level, the factories and the chain getters are reached through the `talks` property, as in `talks.conferenceTalk(...)`.
- `+talk` (`Conference.kt:87`) is a member extension of `TalkConfigDSL`, so in the source it resolves only inside `talks { }`. `Command` is a single type, so the model also accepts `Insert` at depth 0. This is a harmless superset: by `NestedBlockTransparent`, `Insert(t)` at depth 0 has the same effect as `talks { +t }`.
- `at` and `+talk` are expression-bodied functions (`Conference.kt:79-87`). They return the `Boolean` from `MutableList.add`, which is always `true`.

## Model

| member | source | states |
|---|---|---|
| `Talks.TalkKindDefaultsToConference` | app/src/main/kotlin/com/mimacom/kotlinguild/Conference.kt:102-107 | a `Talk` built without a kind is a `CONFERENCE` talk |
| `Talks.MutableTalkList.Add` | app/src/main/kotlin/com/mimacom/kotlinguild/Conference.kt:92-95 | `add` appends at the end, keeps all earlier entries, and returns `true` |
| `Conferences.Conference.constructor` | app/src/main/kotlin/com/mimacom/kotlinguild/Conference.kt:91-92 | a new conference has the given name and location and an empty schedule that is its own, not shared with any other object |
| `Conferences.Conference.AddTalk` | app/src/main/kotlin/com/mimacom/kotlinguild/Conference.kt:94-96 | `addTalk(t)` makes the schedule the old schedule followed by `t`; name and location are immutable |
| `Conferences.Conference.Talks` | app/src/main/kotlin/com/mimacom/kotlinguild/Conference.kt:98-99 | the `talks` getter returns the schedule's current entries, position by position, as a value |
| `Conferences.SnapshotIsIndependent` | app/src/main/kotlin/com/mimacom/kotlinguild/Conference.kt:98-99 | a `talks` snapshot is a copy: after a later `addTalk` it is unchanged, and a new `talks` read returns it plus the new talk |
| `Dsl.EmptyTalk.Named` | app/src/main/kotlin/com/mimacom/kotlinguild/Conference.kt:64-67 | the name given to `named` becomes the topic of every talk the chain later assembles, and the chain keeps the stage's kind |
| `Dsl.NamedTalk.By` | app/src/main/kotlin/com/mimacom/kotlinguild/Conference.kt:70-73 | after `by`, whatever the time, the assembled talk has this stage's topic, the given speaker and the chain's kind |
| `Dsl.NamedAndAuthoredTalk.Assemble` | app/src/main/kotlin/com/mimacom/kotlinguild/Conference.kt:82 | the re-assembled talk has the topic of stage 1, the speaker of stage 2, the given time, and the kind of stage 0 |
| `Dsl.Exec` | app/src/main/kotlin/com/mimacom/kotlinguild/Conference.kt:14-15 | running a block can fail only with a parse error; a `lateinit` property, once assigned, stays assigned; the talk list only grows at its end |
| `Dsl.ChainAssembles` | app/src/main/kotlin/com/mimacom/kotlinguild/Conference.kt:64-84 | `EmptyTalk(k) named n by s`, with time `t`, re-assembles to `Talk(n, s, t, k)` |
| `Dsl.TalkConfig.constructor` | app/src/main/kotlin/com/mimacom/kotlinguild/Conference.kt:35-36 | the inner scope's list is the outer builder's list object itself |
| `Dsl.TalkConfig.ConferenceTalk` | app/src/main/kotlin/com/mimacom/kotlinguild/Conference.kt:48-50 | appends exactly `Talk(topic, speaker, time, CONFERENCE)` to the shared list |
| `Dsl.TalkConfig.KeynoteTalk` | app/src/main/kotlin/com/mimacom/kotlinguild/Conference.kt:52-54 | appends exactly `Talk(topic, speaker, time, KEYNOTE)` to the shared list |
| `Dsl.TalkConfig.EmptyConferenceTalk` | app/src/main/kotlin/com/mimacom/kotlinguild/Conference.kt:58-59 | the `conferenceTalk` getter starts a chain that, for every name, speaker and time, assembles a `CONFERENCE` talk with those fields |
| `Dsl.TalkConfig.EmptyKeynoteTalk` | app/src/main/kotlin/com/mimacom/kotlinguild/Conference.kt:61-62 | the `keynoteTalk` getter starts a chain that, for every name, speaker and time, assembles a `KEYNOTE` talk with those fields |
| `Dsl.TalkConfig.At` | app/src/main/kotlin/com/mimacom/kotlinguild/Conference.kt:76-84 | if the date parses, appends the re-assembled talk with the parsed time and returns `true`; otherwise fails with `ParseError(date)` and leaves the list unchanged |
| `Dsl.TalkConfig.UnaryPlus` | app/src/main/kotlin/com/mimacom/kotlinguild/Conference.kt:87 | `+talk` appends the given talk unchanged and returns `true` |
| `Dsl.ConferenceDSL.constructor` | app/src/main/kotlin/com/mimacom/kotlinguild/Conference.kt:22-33 | a new builder records `isImportant`, starts with `name` and `location` unassigned and an empty fresh list, and wires the inner scope to that same list |
| `Dsl.ConferenceDSL.TalkList` | app/src/main/kotlin/com/mimacom/kotlinguild/Conference.kt:26-27 | the `talkList` getter returns, as a value, the talks currently in the builder's shared list |
| `Dsl.ConferenceDSL.GetName` | app/src/main/kotlin/com/mimacom/kotlinguild/Conference.kt:29 | reading `name` succeeds exactly when it was assigned, and then yields the assigned value; otherwise it fails with `UninitializedProperty("name")` |
| `Dsl.ConferenceDSL.GetLocation` | app/src/main/kotlin/com/mimacom/kotlinguild/Conference.kt:30 | reading `location` succeeds exactly when it was assigned, and then yields the assigned value; otherwise it fails with `UninitializedProperty("location")` |
| `Dsl.ConferenceDSL.Run` | app/src/main/kotlin/com/mimacom/kotlinguild/Conference.kt:41-43 | executing a configuration block, nested `talks { }` blocks included, on the builder and its inner scope leaves exactly the state that `Exec` describes and reports its error; the inner scope stays aliased to the builder's list |
| `Dsl.AddThroughInnerScope` | app/src/main/kotlin/com/mimacom/kotlinguild/Conference.kt:36 | a talk added through the inner scope shows up at once in the outer builder's `talkList`; name and location are untouched |
| `Dsl.BuildConference` | app/src/main/kotlin/com/mimacom/kotlinguild/Conference.kt:14-19 | `conference(...)` fails with the error of `BuildSpec`, or returns a fresh `Conference` with the builder's name, location and talks, in order, copied by the `addTalk` loop |
| `DslProperties.ExecConcat` | app/src/main/kotlin/com/mimacom/kotlinguild/Conference.kt:41-43 | running `a + b` is running `a`, then `b` from `a`'s state unless `a` threw |
| `DslProperties.ExecFlatten` | app/src/main/kotlin/com/mimacom/kotlinguild/Conference.kt:36-43 | nested `talks { }` blocks at any depth act on the one shared builder: replacing every block by its body changes nothing |
| `DslProperties.NestedBlockTransparent` | app/src/main/kotlin/com/mimacom/kotlinguild/Conference.kt:41-43 | `talks { body }; rest` has the same outcome as `body; rest` |
| `DslProperties.ExecFlatClosed` | app/src/main/kotlin/com/mimacom/kotlinguild/Conference.kt:41-87 | for commands without blocks, the outcome is: the last assigned name and location, the produced talks appended in order up to the first date that does not parse, and that date as the error |
| `DslProperties.ExecClosedForm` | app/src/main/kotlin/com/mimacom/kotlinguild/Conference.kt:36-87 | the same closed form holds for any configuration once it is flattened: talks from every depth land in the one list, in execution order, duplicates included |
| `DslProperties.ExecAppendOnly` | app/src/main/kotlin/com/mimacom/kotlinguild/Conference.kt:48-87 | a run never removes or reorders talks: the old list is a prefix of the new one |
| `DslProperties.ExecFailsIff` | app/src/main/kotlin/com/mimacom/kotlinguild/Conference.kt:79-83 | a run throws exactly when some staged `at`, at any depth, has a date that does not parse |
| `DslProperties.StagedMatchesFactory` | app/src/main/kotlin/com/mimacom/kotlinguild/Conference.kt:48-84 | `<kind> named n by s at d`, started from the inner scope's `conferenceTalk`/`keynoteTalk` getter, has the same outcome as the direct factory of that kind with the parsed date, and as `+Talk(n, s, time, kind)`; if `d` does not parse, it fails and the state is unchanged |
| `DslProperties.BuildSpecCharacterized` | app/src/main/kotlin/com/mimacom/kotlinguild/Conference.kt:14-19 | `conference(...)` succeeds exactly when no date fails and `name` and `location` were both assigned, and it then holds the last assigned values and every produced talk in order; otherwise the error is the first failing date, else a missing `name` (read first), else a missing `location` |
| `DslProperties.BuildFailsWithoutName` | app/src/main/kotlin/com/mimacom/kotlinguild/Conference.kt:16 | a configuration that never assigns `name`, and whose dates all parse, makes `conference(...)` fail with `UninitializedProperty("name")` |
| `DslProperties.BuildFailsWithoutLocation` | app/src/main/kotlin/com/mimacom/kotlinguild/Conference.kt:16 | a configuration that assigns `name` but never `location`, and whose dates all parse, makes `conference(...)` fail with `UninitializedProperty("location")` |

## Left out

- `App.kt` (`main`) is not part of this model. It is a demonstration driver, and it calls the clock (`LocalDateTime.now()`).
- `LocalDateTime.parse` is not reimplemented. It is a library call: every operation that parses takes it as the parameter `parse`, and the fields of `LocalDateTime` are never interpreted.
- The restriction "talk operations only inside `talks { }`" is not modelled. It is a compile-time matter of name resolution, and with `@DslMarker` commented out the source does not enforce it for `name`/`location` anyway.
- The Kotlin surface syntax (`inline`, receiver lambdas, `infix`, `operator`, `apply`) appears only through its effects, as ordinary calls.
- A configuration lambda is limited to the commands of `Dsl.Command`. Arbitrary Kotlin code inside it is not modelled: local computation, reading `name` inside the block, or catching an exception part-way.
- A `LocalDateTime.parse(..)` written in the argument of a direct factory or of `Talk(..)` is not modelled. In the source it throws the same `DateTimeParseException` and aborts the block. `ConferenceTalk`, `KeynoteTalk` and `Insert` carry a time that is already parsed, so the only parse failure in the model is the staged `at`. `ExecFailsIff` speaks only of that one.
- Kotlin's outer-instance references are not modelled as fields.
  - The stage values are inner classes bound to the `TalkConfigDSL` that created them; in the model, `At` is called on an inner scope instead.
  - `TalkConfigDSL` is a public inner class, so a builder can have several inner scopes. Every one of them holds the builder's own `_talkList` (`Conference.kt:36`), so which scope of the builder `At` runs on does not matter.
  - What the model drops: a stage value obtained from another builder's scope writes to that other builder's list. In the model, a stage carries no owner, so it writes to the list of whichever scope `At` is called on.
- `isImportant` is stored by the builder and never read, as in the source.
