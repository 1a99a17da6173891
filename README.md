# tomogotchi-cli: pet simulation, running flag and event dispatch

A model of the core of tomogotchi-cli, a terminal virtual pet written in Rust.

- `pet.dfy` (module `Pets`) models `src/pet.rs`. A `Pet` has a name and two `u8` stats, hunger and happiness, that start at 80. `Tick` lowers hunger by 2 and happiness by 1 with saturating subtraction. `Mood` classifies the integer average of the two stats, taken in `u16`, into Happy, Content, Sad or Miserable. `Pet` is a class because `tick` updates its fields in place. The four unit tests of `pet.rs` become methods that build a pet and return what the tests assert on.
- `app.dfy` (module `Application`) models `src/app.rs`. `App` is a class with one field, `running`. The constructor and `Default` set it to true, and `Quit` sets it to false.
- `run_loop.dfy` (module `RunLoop`) models `run_app` in `src/main.rs`. `Dispatch` is the `match` from one event to the action it triggers. `RunApp` is the `while app.running` loop. It takes events from a finite sequence, one per iteration, and stops after the first quit.

The stats are `U8` (0..255). `Pet.Mood` stores their sum in a `U16` (0..65535) before halving it. Both are subset types, so that the sum fits in `u16` is a proof obligation of `Pet.Mood`; the same sum stored in a `U8` is refused. The stats are public `u8` fields, so an average above 100 is reachable. Such an average falls into the catch-all arm and gives Miserable, and the model keeps this.

The code is not self-consistent. `src/main.rs:55-60` calls `app.feed()`, `app.play()` and `app.tick()`, and `src/ui.rs:51,101` reads `app.pet` and `app.last_action`. `src/app.rs:2-5` defines none of these: `App` has only `running`. `Pet` (`src/pet.rs:22-48`) has no `feed` or `play` either. The model treats the three calls as opaque outcomes: `RunApp` records them in a returned trace, and they do not change the flag. It defines no stat increases for feeding or playing, no pet name entry and no feedback message, since the code defines none.

## Model

| member | source | states |
|---|---|---|
| `Pets.SaturatingSub` | src/pet.rs:34-35 | the result never exceeds the input, removes at most `d`, and is either 0 or exactly `x - d` |
| `Pets.Pet.constructor` | src/pet.rs:24-30 | keeps the name, sets hunger and happiness to 80, and gives a pet whose mood is Happy |
| `Pets.Pet.Tick` | src/pet.rs:33-36 | the name is unchanged and both stats decay by one saturating tick (hunger −2, happiness −1, floor 0) |
| `Pets.Pet.Mood` | src/pet.rs:39-47 | the mood is Happy, Content, Sad or Miserable exactly when hunger + happiness is in 140..201, 80..139, 40..79, or below 40 / above 201; the u16 sum cannot overflow |
| `Pets.DecayNeverIncreases` | src/pet.rs:33-36 | a tick never raises a stat, takes at most 2 hunger and 1 happiness, and keeps stats of at most 100 at most 100 |
| `Pets.DecayNClosedForm` | src/pet.rs:33-36 | after n ticks hunger is `hunger - 2n` or 0 and happiness is `happiness - n` or 0 |
| `Pets.DecayNReachesRest` | src/pet.rs:33-36 | both stats are 0 after n ticks if and only if 2n ≥ hunger and n ≥ happiness |
| `Pets.RestIsFinal` | src/pet.rs:33-36 | once both stats reach 0, any number of further ticks leaves them at 0 |
| `Pets.MoodDependsOnlyOnAverage` | src/pet.rs:40 | two pets with the same integer average of their stats have the same mood |
| `Pets.NewPetStartsHealthy` | src/pet.rs:54-60 | a new pet has hunger 80, happiness 80 and mood Happy |
| `Pets.TickDecaysStats` | src/pet.rs:62-68 | one tick from a new pet gives hunger 78 and happiness 79 |
| `Pets.TickClampsAtZero` | src/pet.rs:70-78 | a tick from hunger 1 and happiness 0 gives 0 and 0 |
| `Pets.MoodThresholds` | src/pet.rs:80-99 | (80,80), (50,50), (30,30) and (10,10) give Happy, Content, Sad and Miserable |
| `Application.App.constructor` | src/app.rs:9-11 | a new app is running |
| `Application.App.Default` | src/app.rs:19-23 | the default app is a new app, so it is running |
| `Application.App.Quit` | src/app.rs:14-16 | after quit the app is not running, whatever the flag was before |
| `Application.QuitTwice` | src/app.rs:14-16 | calling quit twice leaves the flag false after each call |
| `RunLoop.Dispatch` | src/main.rs:50-62 | an event quits exactly when it is the key `q` or `Q`, or `c` with Control held; it feeds exactly for `f`/`F`, plays exactly for `p`/`P`, and ticks exactly for a tick event; every other key does nothing |
| `RunLoop.QuitKeysIgnoreModifiers` | src/main.rs:51 | `q` and `Q` quit with any set of modifiers |
| `RunLoop.ControlCQuits` | src/main.rs:52-54 | `c` quits if and only if Control is held; `C` never quits |
| `RunLoop.Dispatches` | src/main.rs:49-62 | one action per event, in order, each the dispatch of its event |
| `RunLoop.Consumed` | src/main.rs:44-63 | a running loop consumes at most all events, none only when there are none, no quit before the last consumed event, and stops early only right after a quit |
| `RunLoop.ConsumedFindsQuit` | src/main.rs:44-63 | the consumed events contain a quit if and only if the whole sequence does |
| `RunLoop.ConsumedSplit` | src/main.rs:44-63 | with no quit among the first k events, the loop consumes those k plus what it consumes from the rest |
| `RunLoop.RunApp` | src/main.rs:44-63 | a running app consumes exactly `Consumed(events)` events, a stopped app consumes none; the trace is the dispatch of each consumed event; the app ends running if and only if it started running and no event quits |
| `RunLoop.RunSample` | src/main.rs:44-63 | a new app given `f`, a tick, `q` and `p` performs feed, tick and quit, then stops without taking the `p` |

## Left out

- `src/ui.rs`: terminal rendering with ratatui, including the `f64` gauge ratios and the colour choice of `stat_color`.
- `src/event.rs`: polling and reading the terminal with crossterm. Events are a parameter of `RunApp`. The model does not capture that a non-key event read after a successful poll is dropped and reported as a tick.
- `main` in `src/main.rs`: raw mode, the alternate screen, the cursor and `io::Result` error propagation.
- `RunApp`: does not model the `terminal.draw` call or the `?` exits on I/O errors in `run_app`. Its finite event sequence stands for a prefix of the real event stream, which never ends: `src/event.rs:25-30` yields a tick whenever the 250 ms poll times out. `RunApp` also stops when that prefix runs out, with the app still running.
- `RunApp`: the calls `app.feed()`, `app.play()` and `app.tick()` have no definition in `src/app.rs`, so their effect is not modelled. They appear only as actions in the trace and are assumed to leave `running` unchanged, since `running` is the only field `App` has.
- The `pet` and `last_action` members that `src/ui.rs` reads, and any stat change for `feed` or `play`: `src/app.rs` and `src/pet.rs` do not define them.
