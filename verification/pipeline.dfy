/**
 * The listener's signals delivered to the window (app.py, Window.__init__
 * connects keyPressed to _on_global_key_down and keyReleased to
 * _on_global_key_up). Each raw input carries the clock reading the window
 * takes when a press reaches it.
 */
module Pipeline {
  import opened Wrappers
  import opened Normalize
  import opened Listener
  import opened Counter

  datatype Timed = Timed(input: Input, now: real)

  /** The window's handler for what one callback emitted. */
  function Deliver(s: Engine, e: Option<Event>, now: real): (r: Engine)
    requires s.Valid()
    ensures r.Valid() && r.keys == s.keys
    ensures e.None? ==> r == s
    ensures e.Some? && e.value.Pressed? ==> r == KeyDown(s, e.value.token, now)
    ensures e.Some? && e.value.Released? ==> r == KeyUp(s, e.value.token)
  {
    match e
    case None => s
    case Some(Pressed(k)) => KeyDown(s, k, now)
    case Some(Released(k)) => KeyUp(s, k)
  }

  /** The listener's down-set and the window's state after a run of inputs. */
  function Feed(keys: set<string>, pressed: set<string>, s: Engine, ts: seq<Timed>): (r: (set<string>, Engine))
    requires s.Valid()
    ensures r.1.Valid() && r.1.keys == s.keys
    decreases |ts|
  {
    if ts == [] then (pressed, s)
    else
      var o := Step(keys, pressed, ts[0].input);
      Feed(keys, o.pressed, Deliver(s, o.event, ts[0].now), ts[1..])
  }

  /** The raw input is a release (keyboard or mouse) that normalises to k. */
  predicate ReleasesToken(input: Input, k: string) {
    match input
    case KbPress(_) => false
    case KbRelease(key) => NormKey(key) == Some(k)
    case MsClick(button, isPressed) => !isPressed && NormMouse(button) == Some(k)
  }

  /** The token that drives a role. */
  function TokenOf(keys: seq<string>, role: Role): string
    requires |keys| == 2
  {
    match role
    case Key1 => keys[0]
    case Key2 => keys[1]
  }

  /**
   * While the key of a role is down and no input releases it, the role's
   * count does not change: repeated presses of a held key are not counted.
   */
  lemma {:induction false} HeldKeyNotRecounted(keys: set<string>, pressed: set<string>, s: Engine, ts: seq<Timed>, role: Role)
    requires s.Valid() && TokenOf(s.keys, role) in pressed
    requires forall i :: 0 <= i < |ts| ==> !ReleasesToken(ts[i].input, TokenOf(s.keys, role))
    ensures Feed(keys, pressed, s, ts).1.Count(role) == s.Count(role)
    decreases |ts|
  {
    if ts != [] {
      var token := TokenOf(s.keys, role);
      var o := Step(keys, pressed, ts[0].input);
      StepShape(keys, pressed, ts[0].input);
      var s' := Deliver(s, o.event, ts[0].now);
      match o.event {
        case None =>
        case Some(Pressed(k)) =>
          assert k != token;
          assert s'.Count(role) == s.Count(role) by {
            if Fires(s, k, ts[0].now, role.Other()) {
              assert role.Other().Other() == role;
            }
          }
        case Some(Released(k)) =>
          assert ReleasesToken(ts[0].input, k);
          assert k != token by { assert !ReleasesToken(ts[0].input, token); }
      }
      assert token in o.pressed;
      assert forall i :: 0 <= i < |ts[1..]| ==> ts[1..][i] == ts[i + 1];
      HeldKeyNotRecounted(keys, o.pressed, s', ts[1..], role);
    }
  }
}
