// The event loop of `run_app` in src/main.rs: while the application runs,
// take one event, map it to an action and perform that action on the app.

module RunLoop {
  import opened Application

  /** Modifier flags carried by a key press (crossterm's `KeyModifiers`). */
  datatype Modifier = Shift | Control | Alt | Super | Hyper | Meta

  /** The code of a pressed key: a character, or one of the terminal library's
      other key codes (arrows, Enter, Esc, function keys, ...), which the loop
      never tells apart. */
  datatype KeyCode = Char(c: char) | Special(code: nat)

  datatype KeyEvent = KeyEvent(code: KeyCode, modifiers: set<Modifier>)

  /** What the event source yields: a key press, or a tick when no key arrived in time. */
  datatype Event = Key(key: KeyEvent) | Tick

  /** The call the loop makes on the app for one event; `NoAction` is the `_ => {}` arm. */
  datatype Action = QuitApp | FeedPet | PlayWithPet | TickApp | NoAction

  /** The `match` on the event: `q`/`Q` quit whatever the modifiers, `c` quits
      only with Control held, `f`/`F` feed, `p`/`P` play, any other key does
      nothing, and a tick ticks. */
  function Dispatch(e: Event): (a: Action)
    ensures a == QuitApp <==>
      e.Key? && (e.key.code == Char('q') || e.key.code == Char('Q') ||
                 (e.key.code == Char('c') && Control in e.key.modifiers))
    ensures a == FeedPet <==> e.Key? && (e.key.code == Char('f') || e.key.code == Char('F'))
    ensures a == PlayWithPet <==> e.Key? && (e.key.code == Char('p') || e.key.code == Char('P'))
    ensures a == TickApp <==> e.Tick?
  {
    match e
    case Key(key) =>
      (match key.code
       case Char(ch) =>
         if ch == 'q' || ch == 'Q' then QuitApp
         else if ch == 'c' && Control in key.modifiers then QuitApp
         else if ch == 'f' || ch == 'F' then FeedPet
         else if ch == 'p' || ch == 'P' then PlayWithPet
         else NoAction
       case Special(_) => NoAction)
    case Tick => TickApp
  }

  /** The actions for a sequence of events, one per event, in order. */
  function Dispatches(es: seq<Event>): (r: seq<Action>)
    ensures |r| == |es|
    ensures forall i :: 0 <= i < |es| ==> r[i] == Dispatch(es[i])
  {
    if es == [] then [] else [Dispatch(es[0])] + Dispatches(es[1..])
  }

  /** How many events a running app consumes from `es`: all of them up to and
      including the first that quits, or all of them if none quits. */
  function Consumed(es: seq<Event>): (n: nat)
    ensures n <= |es|
    ensures n == 0 <==> es == []
    ensures forall i :: 0 <= i < n - 1 ==> Dispatch(es[i]) != QuitApp
    ensures 0 < n < |es| ==> Dispatch(es[n - 1]) == QuitApp
  {
    if es == [] then 0
    else if Dispatch(es[0]) == QuitApp then 1
    else 1 + Consumed(es[1..])
  }

  /** The events consumed hold a quit exactly when the whole sequence does:
      stopping at the first quit never misses one. */
  lemma {:induction false} ConsumedFindsQuit(es: seq<Event>)
    ensures QuitApp in Dispatches(es[..Consumed(es)]) <==> QuitApp in Dispatches(es)
  {
    var n := Consumed(es);
    if n < |es| {
      assert Dispatches(es[..n])[n - 1] == QuitApp;
      assert Dispatches(es)[n - 1] == QuitApp;
    } else {
      assert es[..n] == es;
    }
  }

  /** With no quit among the first `k` events, the count consumed is `k` plus
      the count consumed from the rest. */
  lemma {:induction false} ConsumedSplit(es: seq<Event>, k: nat)
    requires k <= |es|
    requires QuitApp !in Dispatches(es[..k])
    ensures Consumed(es) == k + Consumed(es[k..])
  {
    if k > 0 {
      assert es[1..][..k - 1] == es[1..k];
      ConsumedSplit(es[1..], k - 1);
      assert es[1..][k - 1..] == es[k..];
    }
  }

  /** `run_app` without drawing: while the app runs and events remain, take the
      next event and perform its action. Feed, play and tick are recorded in
      the returned trace and leave the flag alone; quit clears it, and the
      loop then takes no further event. */
  method RunApp(app: App, events: seq<Event>) returns (consumed: nat, trace: seq<Action>)
    modifies app
    ensures consumed == if old(app.running) then Consumed(events) else 0
    ensures trace == Dispatches(events[..consumed])
    ensures app.running == (old(app.running) && QuitApp !in Dispatches(events))
  {
    ghost var wasRunning := app.running;
    consumed, trace := 0, [];
    while app.running && consumed < |events|
      invariant consumed <= |events|
      invariant trace == Dispatches(events[..consumed])
      invariant app.running == (wasRunning && QuitApp !in trace)
      invariant !wasRunning ==> consumed == 0
      invariant wasRunning && app.running ==> Consumed(events) == consumed + Consumed(events[consumed..])
      invariant wasRunning && !app.running ==> Consumed(events) == consumed
    {
      var action := Dispatch(events[consumed]);
      match action {
        case QuitApp => app.Quit();
        case _ =>
      }
      ConsumedSplit(events, consumed);
      assert events[..consumed + 1] == events[..consumed] + [events[consumed]];
      DispatchesAppend(events[..consumed], events[consumed]);
      trace := trace + [action];
      consumed := consumed + 1;
      if action != QuitApp {
        ConsumedSplit(events, consumed);
      }
    }
    if wasRunning {
      ConsumedFindsQuit(events);
      if app.running {
        assert events[..consumed] == events;
      }
    } else {
      assert events[..consumed] == [];
    }
  }

  /** Dispatching one more event appends its action. */
  lemma DispatchesAppend(es: seq<Event>, e: Event)
    ensures Dispatches(es + [e]) == Dispatches(es) + [Dispatch(e)]
  {
    var l, r := Dispatches(es + [e]), Dispatches(es) + [Dispatch(e)];
    assert |l| == |r|;
    forall i | 0 <= i < |l|
      ensures l[i] == r[i]
    {
      if i < |es| {
        assert (es + [e])[i] == es[i];
      }
    }
  }

  /** A key press of `q` or `Q` quits, whatever modifiers are held. */
  lemma QuitKeysIgnoreModifiers(mods: set<Modifier>)
    ensures Dispatch(Key(KeyEvent(Char('q'), mods))) == QuitApp
    ensures Dispatch(Key(KeyEvent(Char('Q'), mods))) == QuitApp
  {
  }

  /** `c` quits with Control held and does nothing without it; `C` never
      quits, even with Control held. */
  lemma ControlCQuits(mods: set<Modifier>)
    ensures Dispatch(Key(KeyEvent(Char('c'), mods))) == (if Control in mods then QuitApp else NoAction)
    ensures Dispatch(Key(KeyEvent(Char('C'), mods))) == NoAction
  {
  }

  /** A freshly created app that receives `f`, a tick, `q`, then `p` performs
      feed, tick and quit, and never sees the `p`. */
  method RunSample() returns (consumed: nat, trace: seq<Action>, running: bool)
    ensures consumed == 3 && trace == [FeedPet, TickApp, QuitApp] && !running
  {
    var app := new App();
    var events := [Key(KeyEvent(Char('f'), {})), Tick, Key(KeyEvent(Char('q'), {})), Key(KeyEvent(Char('p'), {}))];
    assert Dispatch(events[2]) == QuitApp;
    consumed, trace := RunApp(app, events);
    assert Dispatches(events) == [FeedPet, TickApp, QuitApp, PlayWithPet];
    running := app.running;
  }
}
