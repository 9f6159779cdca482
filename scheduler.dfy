/** The plugin's `start`/`stop` hooks over its one field `updateInterval`,
    and the host's table of registered interval timers. `start` overwrites the
    field with a fresh timer id without looking at it; `stop` cancels whatever
    id the field holds and leaves the field as it is. */
module Scheduler {
  import opened Wrappers

  /** The period `start` passes to `setInterval`, in milliseconds. */
  const HeartbeatIntervalMs := 120000

  /** The field `updateInterval`, the ids of the timers still registered with
      the host, and the id the host hands out next. */
  datatype State = State(handle: Option<nat>, active: set<nat>, nextId: nat)

  /** Every id in use was handed out before. */
  ghost predicate Wf(s: State)
  {
    && (forall t :: t in s.active ==> t < s.nextId)
    && (s.handle.Some? ==> s.handle.value < s.nextId)
  }

  function HandleIds(s: State): set<nat>
  {
    if s.handle.Some? then {s.handle.value} else {}
  }

  /** `this.updateInterval = setInterval(...)`. */
  function StartStep(s: State): (r: State)
    ensures r.handle.Some? && r.handle.value in r.active
    ensures s.active <= r.active && r.active - s.active <= {r.handle.value}
    ensures Wf(s) ==> Wf(r) && r.handle.value !in s.active
  {
    var id := s.nextId;
    State(Some(id), s.active + {id}, id + 1)
  }

  /** `clearInterval(this.updateInterval)`: cancels the recorded timer, if any. */
  function StopStep(s: State): (r: State)
    ensures r.handle == s.handle && r.nextId == s.nextId
    ensures s.handle.Some? ==> r.active == s.active - {s.handle.value}
    ensures s.handle.None? ==> r == s
    ensures Wf(s) ==> Wf(r)
  {
    if s.handle.Some? then State(s.handle, s.active - {s.handle.value}, s.nextId) else s
  }

  datatype Hook = Start | Stop

  function Step(s: State, h: Hook): State
  {
    match h
    case Start => StartStep(s)
    case Stop => StopStep(s)
  }

  /** The state after the host calls the hooks in `hooks`, in order. */
  function Run(s: State, hooks: seq<Hook>): State
    decreases |hooks|
  {
    if hooks == [] then s else Run(Step(s, hooks[0]), hooks[1..])
  }

  /** `stop` twice is `stop` once. */
  lemma StopIdempotent(s: State)
    ensures StopStep(StopStep(s)) == StopStep(s)
  {
  }

  /** Two `start`s then a `stop` leave the first timer registered: `stop`
      cancels only the most recent one. */
  lemma DoubleStartLeaks(s: State)
    requires Wf(s)
    ensures var first := StartStep(s);
            var r := StopStep(StartStep(first));
            && first.handle.value in r.active
            && r.active == s.active + {first.handle.value}
  {
  }

  /** A registered timer that the field no longer records is never cancelled
      by any later sequence of hooks. */
  lemma {:induction false} OrphanNeverCancelled(s: State, hooks: seq<Hook>, t: nat)
    requires Wf(s) && t in s.active && s.handle != Some(t)
    ensures t in Run(s, hooks).active
    decreases |hooks|
  {
    if hooks != [] {
      var next := Step(s, hooks[0]);
      assert Wf(next) && t in next.active && next.handle != Some(t);
      OrphanNeverCancelled(next, hooks[1..], t);
    }
  }

  /** The recorded timer is running. */
  predicate Running(s: State)
  {
    s.handle.Some? && s.handle.value in s.active
  }

  /** The hooks never `start` while a timer is running: the caller-side
      discipline the plugin itself does not enforce. */
  predicate Disciplined(s: State, hooks: seq<Hook>)
    decreases |hooks|
  {
    hooks == [] || ((hooks[0] == Start ==> !Running(s)) && Disciplined(Step(s, hooks[0]), hooks[1..]))
  }

  /** Under that discipline at most one timer is ever registered, and it is
      the one the field records. */
  lemma {:induction false} DisciplinedSingleTimer(s: State, hooks: seq<Hook>)
    requires s.active <= HandleIds(s)
    requires Disciplined(s, hooks)
    ensures Run(s, hooks).active <= HandleIds(Run(s, hooks))
    ensures |Run(s, hooks).active| <= 1
    decreases |hooks|
  {
    if hooks == [] {
      if s.active != {} {
        var t :| t in s.active;
        assert s.active == {t};
      }
    } else {
      var next := Step(s, hooks[0]);
      if hooks[0] == Start {
        assert s.active == {};
      }
      assert next.active <= HandleIds(next);
      DisciplinedSingleTimer(next, hooks[1..]);
    }
  }

  /** The host's interval-timer table (`setInterval`/`clearInterval`). */
  class TimerTable {
    var active: set<nat>
    var nextId: nat

    ghost predicate Valid()
      reads this
    {
      forall t :: t in active ==> t < nextId
    }

    constructor ()
      ensures Valid() && active == {} && nextId == 1
    {
      active := {};
      nextId := 1;
    }

    /** Registers a timer of the given period and returns its fresh id. */
    method SetInterval(periodMs: nat) returns (id: nat)
      requires Valid()
      modifies this
      ensures Valid()
      ensures id == old(nextId) && id !in old(active)
      ensures active == old(active) + {id} && nextId == old(nextId) + 1
    {
      id := nextId;
      active := active + {id};
      nextId := nextId + 1;
    }

    /** Cancels the timer `id` holds; an `undefined` or already cancelled id is a no-op. */
    method ClearInterval(id: Option<nat>)
      requires Valid()
      modifies this
      ensures Valid() && nextId == old(nextId)
      ensures active == if id.Some? then old(active) - {id.value} else old(active)
    {
      if id.Some? {
        active := active - {id.value};
      }
    }
  }

  /** The plugin object with its `updateInterval` field. */
  class WakatimePlugin {
    var updateInterval: Option<nat>

    constructor ()
      ensures updateInterval == None
    {
      updateInterval := None;
    }

    function Snapshot(timers: TimerTable): (s: State)
      reads this, timers
    {
      State(updateInterval, timers.active, timers.nextId)
    }

    method Start(timers: TimerTable)
      requires timers.Valid()
      modifies this, timers
      ensures timers.Valid()
      ensures updateInterval == Some(old(timers.nextId))
      ensures timers.active == old(timers.active) + {old(timers.nextId)}
      ensures Snapshot(timers) == StartStep(old(Snapshot(timers)))
    {
      var id := timers.SetInterval(HeartbeatIntervalMs);
      updateInterval := Some(id);
    }

    method Stop(timers: TimerTable)
      requires timers.Valid()
      modifies timers
      ensures timers.Valid()
      ensures updateInterval.Some? ==> updateInterval.value !in timers.active
      ensures Snapshot(timers) == StopStep(old(Snapshot(timers)))
    {
      timers.ClearInterval(updateInterval);
    }
  }

  /** `stop` before any `start` is a no-op; `start` twice then `stop` leaves
      exactly the first timer running. */
  method StartTwiceThenStop() returns (stoppedEarly: set<nat>, first: nat, second: nat, leaked: set<nat>)
    ensures stoppedEarly == {}
    ensures first != second && leaked == {first}
  {
    var timers := new TimerTable();
    var plugin := new WakatimePlugin();
    plugin.Stop(timers);
    stoppedEarly := timers.active;
    plugin.Start(timers);
    first := plugin.updateInterval.value;
    plugin.Start(timers);
    second := plugin.updateInterval.value;
    plugin.Stop(timers);
    leaked := timers.active;
  }
}
