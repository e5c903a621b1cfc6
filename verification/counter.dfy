/**
 * The per-role cooldown counter of the overlay window (app.py,
 * Window._on_global_key_down, Window._on_global_key_up, Canvas.set_bg,
 * Canvas.increment). A token equal to the first configured key drives role
 * key1, one equal to the second drives role key2; a role fires only when its
 * delay has passed since its last accepted fire.
 */
module Counter {
  import opened Wrappers

  /** The two roles and the dictionary keys the source uses for them. */
  datatype Role = Key1 | Key2 {
    function Name(): string {
      match this
      case Key1 => "key1"
      case Key2 => "key2"
    }
    /** The background shown while this role flashes. */
    function Flash(): int {
      match this
      case Key1 => 1
      case Key2 => 2
    }
    function Other(): Role {
      match this
      case Key1 => Key2
      case Key2 => Key1
    }
  }

  /** The idle background. */
  const Idle: int := 3

  /**
   * The counter state the window and its canvas hold between events: the
   * configured keys, the delays, the shared counts dictionary, the time of
   * each role's last accepted fire, and the background being shown.
   */
  datatype Engine = Engine(
    keys: seq<string>,
    delay: map<string, real>,
    counts: map<string, int>,
    lastAccept: map<string, real>,
    bg: int)
  {
    ghost predicate Valid() {
      |keys| == 2 && "key1" in lastAccept && "key2" in lastAccept
    }
    function Count(role: Role): int {
      Get(counts, role.Name(), 0)
    }
    function Delay(role: Role): real {
      Get(delay, role.Name(), 0.0)
    }
    function Last(role: Role): real
      requires Valid()
    {
      lastAccept[role.Name()]
    }
  }

  /** The role a token drives: the first key wins when both are equal. */
  function RoleOf(keys: seq<string>, k: string): (r: Option<Role>)
    requires |keys| == 2
    ensures r == Some(Key1) <==> k == keys[0]
    ensures r == Some(Key2) <==> k != keys[0] && k == keys[1]
  {
    if k == keys[0] then Some(Key1) else if k == keys[1] then Some(Key2) else None
  }

  /** A key-down of k at time now is accepted for role. */
  predicate Fires(s: Engine, k: string, now: real, role: Role)
    requires s.Valid()
  {
    RoleOf(s.keys, k) == Some(role) && now - s.Last(role) >= s.Delay(role)
  }

  /** _on_global_key_down, with the clock reading passed in as now. */
  function KeyDown(s: Engine, k: string, now: real): (r: Engine)
    requires s.Valid()
    ensures r.Valid() && r.keys == s.keys && r.delay == s.delay
    ensures !(Fires(s, k, now, Key1) && Fires(s, k, now, Key2))
    // the fired role's count goes up by exactly one and its stamp becomes now
    ensures forall role: Role :: Fires(s, k, now, role) ==>
      r.Count(role) == s.Count(role) + 1 && r.Last(role) == now && r.bg == role.Flash()
      && r.Count(role.Other()) == s.Count(role.Other()) && r.Last(role.Other()) == s.Last(role.Other())
    // no other entry of the counts dictionary is touched
    ensures r.counts.Keys <= s.counts.Keys + {"key1", "key2"}
    ensures forall name :: name in s.counts && name != "key1" && name != "key2" ==>
      name in r.counts && r.counts[name] == s.counts[name]
    // a rejected or unmatched token changes nothing at all
    ensures !Fires(s, k, now, Key1) && !Fires(s, k, now, Key2) ==> r == s
  {
    match RoleOf(s.keys, k)
    case None => s
    case Some(role) =>
      if now - s.Last(role) >= s.Delay(role) then
        s.(counts := s.counts[role.Name() := s.Count(role) + 1],
           lastAccept := s.lastAccept[role.Name() := now],
           bg := role.Flash())
      else s
  }

  /** _on_global_key_up: either configured key brings back the idle background. */
  function KeyUp(s: Engine, k: string): (r: Engine)
    requires s.Valid()
    ensures r.Valid()
    ensures r.keys == s.keys && r.delay == s.delay && r.counts == s.counts && r.lastAccept == s.lastAccept
    ensures r.bg == if k == s.keys[0] || k == s.keys[1] then Idle else s.bg
  {
    if k == s.keys[0] || k == s.keys[1] then s.(bg := Idle) else s
  }

  /** What the window receives from the listener, with the clock reading of a key-down. */
  datatype Signal = Down(token: string, now: real) | Up(token: string)

  function Apply(s: Engine, sig: Signal): (r: Engine)
    requires s.Valid()
    ensures r.Valid() && r.keys == s.keys && r.delay == s.delay
  {
    match sig
    case Down(k, now) => KeyDown(s, k, now)
    case Up(k) => KeyUp(s, k)
  }

  /** Whether a signal is an accepted fire of role. */
  predicate SignalFires(s: Engine, sig: Signal, role: Role)
    requires s.Valid()
  {
    sig.Down? && Fires(s, sig.token, sig.now, role)
  }

  function Run(s: Engine, sigs: seq<Signal>): (r: Engine)
    requires s.Valid()
    ensures r.Valid() && r.keys == s.keys && r.delay == s.delay
    decreases |sigs|
  {
    if sigs == [] then s else Run(Apply(s, sigs[0]), sigs[1..])
  }

  /** The clock readings at which role fired, in order. */
  function FireTimes(s: Engine, sigs: seq<Signal>, role: Role): seq<real>
    requires s.Valid()
    decreases |sigs|
  {
    if sigs == [] then []
    else
      var head := if SignalFires(s, sigs[0], role) then [sigs[0].now] else [];
      head + FireTimes(Apply(s, sigs[0]), sigs[1..], role)
  }

  /** One signal changes a role's count and stamp only when it fires that role. */
  lemma ApplyRole(s: Engine, sig: Signal, role: Role)
    requires s.Valid()
    ensures var r := Apply(s, sig);
      if SignalFires(s, sig, role)
      then r.Count(role) == s.Count(role) + 1 && r.Last(role) == sig.now
      else r.Count(role) == s.Count(role) && r.Last(role) == s.Last(role)
  {
  }

  /** A role's count grows by exactly the number of its accepted fires. */
  lemma {:induction false} RunCount(s: Engine, sigs: seq<Signal>, role: Role)
    requires s.Valid()
    ensures Run(s, sigs).Count(role) == s.Count(role) + |FireTimes(s, sigs, role)|
    decreases |sigs|
  {
    if sigs != [] {
      ApplyRole(s, sigs[0], role);
      RunCount(Apply(s, sigs[0]), sigs[1..], role);
    }
  }

  /** Each time in times is at least d after the one before it, the first at least d after last. */
  predicate Spaced(last: real, times: seq<real>, d: real)
    decreases |times|
  {
    times == [] || (times[0] - last >= d && Spaced(times[0], times[1..], d))
  }

  /** Two accepted fires of one role are at least that role's delay apart. */
  lemma {:induction false} RunSpacing(s: Engine, sigs: seq<Signal>, role: Role)
    requires s.Valid()
    ensures Spaced(s.Last(role), FireTimes(s, sigs, role), s.Delay(role))
    decreases |sigs|
  {
    if sigs != [] {
      var s' := Apply(s, sigs[0]);
      ApplyRole(s, sigs[0], role);
      RunSpacing(s', sigs[1..], role);
      var rest := FireTimes(s', sigs[1..], role);
      if SignalFires(s, sigs[0], role) {
        assert ([sigs[0].now] + rest)[1..] == rest;
      } else {
        assert [] + rest == rest;
      }
    }
  }

  /** Spacing, stated index by index. */
  lemma {:induction false} SpacedGaps(last: real, times: seq<real>, d: real)
    requires Spaced(last, times, d)
    ensures |times| > 0 ==> times[0] - last >= d
    ensures forall i :: 0 < i < |times| ==> times[i] - times[i - 1] >= d
    decreases |times|
  {
    if |times| > 0 {
      SpacedGaps(times[0], times[1..], d);
      forall i | 0 < i < |times| ensures times[i] - times[i - 1] >= d {
        if i > 1 {
          assert times[1..][i - 1] == times[i] && times[1..][i - 2] == times[i - 1];
        }
      }
    }
  }

  /**
   * From a freshly opened window (every stamp 0.0), the first accepted fire
   * of a role comes no earlier than its delay, and later fires of the role
   * are at least the delay apart.
   */
  lemma FreshWindowFires(s: Engine, sigs: seq<Signal>, role: Role)
    requires s.Valid() && s.Last(role) == 0.0
    ensures var t := FireTimes(s, sigs, role);
      (|t| > 0 ==> t[0] >= s.Delay(role))
      && forall i :: 0 < i < |t| ==> t[i] - t[i - 1] >= s.Delay(role)
  {
    RunSpacing(s, sigs, role);
    SpacedGaps(s.Last(role), FireTimes(s, sigs, role), s.Delay(role));
  }

  /** Canvas: the counts it shows (the window's own dictionary) and the background. */
  class Canvas {
    const keys: seq<string>
    var counts: map<string, int>
    var bgCurrent: int

    /** The state part of Canvas.__init__: the idle background is shown first. */
    constructor (keys: seq<string>, counts: map<string, int>)
      ensures this.keys == keys && this.counts == counts && bgCurrent == Idle
    {
      this.keys := keys;
      this.counts := counts;
      bgCurrent := Idle;
    }

    /** set_bg; the repaint it requests is not modelled. */
    method SetBg(which: int)
      modifies this`bgCurrent
      ensures bgCurrent == which
    {
      bgCurrent := which;
    }

    /** increment: a missing entry counts as 0; no other entry changes. */
    method Increment(whichKey: string)
      modifies this`counts
      ensures counts.Keys == old(counts).Keys + {whichKey}
      ensures counts[whichKey] == Get(old(counts), whichKey, 0) + 1
      ensures forall key :: key in old(counts) && key != whichKey ==> counts[key] == old(counts)[key]
    {
      counts := counts[whichKey := Get(counts, whichKey, 0) + 1];
    }
  }

  /**
   * Window: the configured keys and delays, the stamps of the last accepted
   * fires, and the canvas. The window's counts dictionary is the canvas's
   * (the source hands the same dict to both), so it lives in canvas.counts.
   */
  class Window {
    const keys: seq<string>
    const delay: map<string, real>
    var lastAccept: map<string, real>
    const canvas: Canvas

    ghost predicate Valid()
      reads this
    {
      |keys| == 2 && "key1" in lastAccept && "key2" in lastAccept
    }

    ghost function State(): Engine
      reads this, canvas
    {
      Engine(keys, delay, canvas.counts, lastAccept, canvas.bgCurrent)
    }

    /** The state part of Window.__init__, given the loaded configuration. */
    constructor (keys: seq<string>, counts: map<string, int>, delay: map<string, real>)
      requires |keys| == 2
      ensures Valid() && fresh(canvas)
      ensures State() == Engine(keys, delay, counts, map["key1" := 0.0, "key2" := 0.0], Idle)
    {
      this.keys := keys;
      this.delay := delay;
      lastAccept := map["key1" := 0.0, "key2" := 0.0];
      canvas := new Canvas(keys, counts);
    }

    /** _on_global_key_down; the save of the configuration it triggers is not modelled. */
    method OnGlobalKeyDown(k: string, now: real)
      requires Valid()
      modifies this`lastAccept, canvas
      ensures Valid()
      ensures State() == KeyDown(old(State()), k, now)
    {
      if k == keys[0] {
        var role := "key1";
        if now - lastAccept[role] >= Get(delay, role, 0.0) {
          canvas.counts := canvas.counts[role := Get(canvas.counts, role, 0) + 1];
          lastAccept := lastAccept[role := now];
          canvas.SetBg(1);
        }
      } else if k == keys[1] {
        var role := "key2";
        if now - lastAccept[role] >= Get(delay, role, 0.0) {
          canvas.counts := canvas.counts[role := Get(canvas.counts, role, 0) + 1];
          lastAccept := lastAccept[role := now];
          canvas.SetBg(2);
        }
      }
    }

    /** _on_global_key_up */
    method OnGlobalKeyUp(k: string)
      requires Valid()
      modifies canvas
      ensures Valid()
      ensures State() == KeyUp(old(State()), k)
    {
      if k == keys[0] || k == keys[1] {
        canvas.SetBg(Idle);
      }
    }
  }
}
