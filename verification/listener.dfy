/**
 * The press de-duplication of the global key listener (app.py,
 * GlobalKeyListener.run: on_kb_press, on_kb_release, on_ms_click). The
 * listener watches a set of tokens and remembers which of them are down,
 * so a token is reported pressed at most once between releases.
 */
module Listener {
  import opened Wrappers
  import opened Text
  import opened Normalize

  /** The two signals the listener emits to the window. */
  datatype Event = Pressed(token: string) | Released(token: string)

  /** One callback invocation; the mouse position of on_ms_click plays no part. */
  datatype Input =
    | KbPress(key: RawKey)
    | KbRelease(key: RawKey)
    | MsClick(button: MouseButton, isPressed: bool)

  /** The down-set after a callback, and what it emitted. */
  datatype Outcome = Outcome(pressed: set<string>, event: Option<Event>)

  /** `k and k in self.keys`: the token exists, is non-empty and is watched. */
  predicate Watched(keys: set<string>, k: Option<string>) {
    HasText(k) && k.value in keys
  }

  /** A press of the (normalised) token k. */
  function Press(keys: set<string>, pressed: set<string>, k: Option<string>): (r: Outcome)
    ensures r.event.Some? <==> Watched(keys, k) && k.value !in pressed
    ensures r.event.Some? ==> r.event.value == Pressed(k.value) && r.pressed == pressed + {k.value}
    ensures r.event.None? ==> r.pressed == pressed
  {
    if Watched(keys, k) && k.value !in pressed then Outcome(pressed + {k.value}, Some(Pressed(k.value)))
    else Outcome(pressed, None)
  }

  /** A release of the (normalised) token k: emitted whenever k is watched. */
  function Release(keys: set<string>, pressed: set<string>, k: Option<string>): (r: Outcome)
    ensures r.event.Some? <==> Watched(keys, k)
    ensures r.event.Some? ==> r.event.value == Released(k.value) && r.pressed == pressed - {k.value}
    ensures r.event.None? ==> r.pressed == pressed
  {
    if Watched(keys, k) then Outcome(pressed - {k.value}, Some(Released(k.value)))
    else Outcome(pressed, None)
  }

  /** The callback the backend invokes for one input. */
  function Step(keys: set<string>, pressed: set<string>, input: Input): (r: Outcome)
    // keyboard and mouse share one rule once the input is normalised
    ensures input.KbPress? ==> r == Press(keys, pressed, NormKey(input.key))
    ensures input.KbRelease? ==> r == Release(keys, pressed, NormKey(input.key))
    ensures input.MsClick? && input.isPressed ==> r == Press(keys, pressed, NormMouse(input.button))
    ensures input.MsClick? && !input.isPressed ==> r == Release(keys, pressed, NormMouse(input.button))
  {
    match input
    case KbPress(key) => Press(keys, pressed, NormKey(key))
    case KbRelease(key) => Release(keys, pressed, NormKey(key))
    case MsClick(button, isPressed) =>
      if isPressed then Press(keys, pressed, NormMouse(button))
      else Release(keys, pressed, NormMouse(button))
  }

  /**
   * Every callback either emits nothing and leaves the down-set alone, or
   * emits a press of a watched token that was up and puts it down, or emits
   * a release of a watched token and takes it out.
   */
  lemma StepShape(keys: set<string>, pressed: set<string>, input: Input)
    ensures var o := Step(keys, pressed, input);
      match o.event
      case None => o.pressed == pressed
      case Some(Pressed(k)) => k in keys && k !in pressed && o.pressed == pressed + {k}
      case Some(Released(k)) => k in keys && o.pressed == pressed - {k}
  {
  }

  /** A second press of a token without a release in between emits nothing and changes nothing. */
  lemma PressTwice(keys: set<string>, pressed: set<string>, k: Option<string>)
    ensures var o := Press(keys, pressed, k);
      Press(keys, o.pressed, k) == Outcome(o.pressed, None)
  {
  }

  /** The events a sequence of callbacks emits, and the final down-set. */
  function Run(keys: set<string>, pressed: set<string>, inputs: seq<Input>): (set<string>, seq<Event>)
    decreases |inputs|
  {
    if inputs == [] then (pressed, [])
    else
      var o := Step(keys, pressed, inputs[0]);
      var rest := Run(keys, o.pressed, inputs[1..]);
      (rest.0, (if o.event.Some? then [o.event.value] else []) + rest.1)
  }

  /**
   * The event stream is consistent with the down-set `down`: a token is
   * reported pressed only while it is not down, a press puts it down and a
   * release takes it out (a release of a token that is up is allowed).
   */
  predicate Alternates(events: seq<Event>, down: set<string>)
    decreases |events|
  {
    events == [] ||
    match events[0]
    case Pressed(k) => k !in down && Alternates(events[1..], down + {k})
    case Released(k) => Alternates(events[1..], down - {k})
  }

  /** Whatever the raw inputs, the emitted events alternate, starting from the down-set. */
  lemma {:induction false} RunAlternates(keys: set<string>, pressed: set<string>, inputs: seq<Input>)
    ensures Alternates(Run(keys, pressed, inputs).1, pressed)
    ensures pressed <= keys ==> Run(keys, pressed, inputs).0 <= keys
    ensures forall e :: e in Run(keys, pressed, inputs).1 ==> e.token in keys
    decreases |inputs|
  {
    if inputs != [] {
      var o := Step(keys, pressed, inputs[0]);
      RunAlternates(keys, o.pressed, inputs[1..]);
      StepShape(keys, pressed, inputs[0]);
      var rest := Run(keys, o.pressed, inputs[1..]).1;
      assert Run(keys, pressed, inputs).1 == (if o.event.Some? then [o.event.value] else []) + rest;
      if o.event.Some? {
        var evs := [o.event.value] + rest;
        assert evs[0] == o.event.value && evs[1..] == rest;
        match o.event.value
        case Pressed(k) =>
          assert Alternates(evs, pressed);
        case Released(k) => assert Alternates(evs, pressed);
      } else {
        assert [] + rest == rest;
      }
    }
  }

  /** In a consistent stream, a token that is down is released before it is pressed again. */
  lemma {:induction false} DownReleasedBeforePress(events: seq<Event>, down: set<string>, k: string, j: int)
    requires Alternates(events, down) && k in down
    requires 0 <= j < |events| && events[j] == Pressed(k)
    ensures exists m :: 0 <= m < j && events[m] == Released(k)
    decreases |events|
  {
    match events[0]
    case Pressed(k') =>
      assert k' != k;
      DownReleasedBeforePress(events[1..], down + {k'}, k, j - 1);
      var m :| 0 <= m < j - 1 && events[1..][m] == Released(k);
      assert events[m + 1] == Released(k);
    case Released(k') =>
      if k' != k {
        DownReleasedBeforePress(events[1..], down - {k'}, k, j - 1);
        var m :| 0 <= m < j - 1 && events[1..][m] == Released(k);
        assert events[m + 1] == Released(k);
      } else {
        assert events[0] == Released(k);
      }
  }

  /** Between two reported presses of one token there is a reported release of it. */
  lemma {:induction false} NoDoublePress(events: seq<Event>, down: set<string>, k: string, i: int, j: int)
    requires Alternates(events, down)
    requires 0 <= i < j < |events| && events[i] == Pressed(k) && events[j] == Pressed(k)
    ensures exists m :: i < m < j && events[m] == Released(k)
    decreases |events|
  {
    if i == 0 {
      DownReleasedBeforePress(events[1..], down + {k}, k, j - 1);
      var m :| 0 <= m < j - 1 && events[1..][m] == Released(k);
      assert events[m + 1] == Released(k);
    } else {
      var down' := match events[0] case Pressed(t) => down + {t} case Released(t) => down - {t};
      NoDoublePress(events[1..], down', k, i - 1, j - 1);
      var m :| i - 1 < m < j - 1 && events[1..][m] == Released(k);
      assert events[m + 1] == Released(k);
    }
  }

  /** A listener started with nothing down never reports two presses of a token without a release between. */
  lemma RunNoDoublePress(keys: set<string>, inputs: seq<Input>, k: string, i: int, j: int)
    requires var evs := Run(keys, {}, inputs).1;
      0 <= i < j < |evs| && evs[i] == Pressed(k) && evs[j] == Pressed(k)
    ensures exists m :: i < m < j && Run(keys, {}, inputs).1[m] == Released(k)
  {
    RunAlternates(keys, {}, inputs);
    NoDoublePress(Run(keys, {}, inputs).1, {}, k, i, j);
  }

  /** GlobalKeyListener: the watch-set and the set of watched tokens currently down. */
  class GlobalKeyListener {
    var keys: set<string>
    var pressed: set<string>

    ghost predicate Valid()
      reads this
    {
      pressed <= keys
    }

    /** The watch-set is the lower-cased configured keys; nothing is down. */
    constructor (configured: seq<string>)
      ensures Valid()
      ensures keys == set k | k in configured :: Lower(k)
      ensures pressed == {}
    {
      keys := set k | k in configured :: Lower(k);
      pressed := {};
    }

    /** on_kb_press */
    method OnKbPress(key: RawKey) returns (e: Option<Event>)
      requires Valid()
      modifies this`pressed
      ensures Valid()
      ensures Outcome(pressed, e) == Step(keys, old(pressed), KbPress(key))
    {
      var k := NormKey(key);
      if k.Some? && k.value != [] && k.value in keys && k.value !in pressed {
        pressed := pressed + {k.value};
        e := Some(Pressed(k.value));
      } else {
        e := None;
      }
    }

    /** on_kb_release */
    method OnKbRelease(key: RawKey) returns (e: Option<Event>)
      requires Valid()
      modifies this`pressed
      ensures Valid()
      ensures Outcome(pressed, e) == Step(keys, old(pressed), KbRelease(key))
    {
      var k := NormKey(key);
      if k.Some? && k.value != [] && k.value in keys {
        pressed := pressed - {k.value};
        e := Some(Released(k.value));
      } else {
        e := None;
      }
    }

    /** on_ms_click; the mouse position is not used. */
    method OnMsClick(button: MouseButton, isPressed: bool) returns (e: Option<Event>)
      requires Valid()
      modifies this`pressed
      ensures Valid()
      ensures Outcome(pressed, e) == Step(keys, old(pressed), MsClick(button, isPressed))
    {
      var k := NormMouse(button);
      if k.None? || k.value == [] || k.value !in keys {
        return None;
      }
      if isPressed {
        if k.value !in pressed {
          pressed := pressed + {k.value};
          e := Some(Pressed(k.value));
        } else {
          e := None;
        }
      } else {
        pressed := pressed - {k.value};
        e := Some(Released(k.value));
      }
    }
  }
}
