/** Properties of the axis handler over runs of consecutive samples: the
    debounce that needs sustained intent before a move, and the cooldown
    after one. */
module Debounce {
  import opened StreetviewTypes
  import opened StreetviewPanoActivity
  import StreetviewRos

  /** One axis sample and the wall-clock time it is handled at. */
  datatype Sample = Sample(axes: AbsState, now: int)

  /** Handles `samples` in order, collecting everything emitted. */
  function RunAxis(lib: Library, s: ActivityState, samples: seq<Sample>): (r: Step)
    ensures r.state.master == s.master && r.state.activated == s.activated
    ensures r.state.linksDirty == s.linksDirty && r.state.model.links == s.model.links
    ensures Inv(s) ==> Inv(r.state)
    ensures NoNullPano(r.out)
    decreases |samples|
  {
    if |samples| == 0 then Step(s, [])
    else
      var before := RunAxis(lib, s, samples[..|samples| - 1]);
      var last := samples[|samples| - 1];
      var step := OnRosAbsState(lib, before.state, last.axes, last.now);
      Step(step.state, before.out + step.out)
  }

  /** A run ends with its last sample handled after the rest. */
  lemma RunAxisLast(lib: Library, s: ActivityState, samples: seq<Sample>)
    requires |samples| > 0
    ensures var before := RunAxis(lib, s, samples[..|samples| - 1]);
      var last := samples[|samples| - 1];
      var st := OnRosAbsState(lib, before.state, last.axes, last.now);
      RunAxis(lib, s, samples) == Step(st.state, before.out + st.out)
  {
  }

  /** A sample pushing forward hard enough to count. The counter ignores
      the turn axis, so the sample may turn as well. */
  predicate ForwardPush(x: Sample) {
    x.axes.y + x.axes.rx <= -313
  }

  /** A sample pushing backward hard enough to count, turning or not. */
  predicate BackwardPush(x: Sample) {
    x.axes.y + x.axes.rx >= 313
  }

  /** No sample turns. */
  predicate NoTurn(samples: seq<Sample>) {
    forall i :: 0 <= i < |samples| ==> samples[i].axes.rz == 0
  }

  /** Every sample comes at least a cooldown after `since`. */
  predicate OutsideCooldown(samples: seq<Sample>, since: int) {
    forall i :: 0 <= i < |samples| ==> samples[i].now - since >= InputMovementCooldown
  }

  /** Every sample comes within a cooldown of `since`. */
  predicate InsideCooldown(samples: seq<Sample>, since: int) {
    forall i :: 0 <= i < |samples| ==> samples[i].now - since < InputMovementCooldown
  }

  /** An activated master at rest, ready to count. */
  predicate Ready(s: ActivityState) {
    s.master && s.activated && !s.linksDirty && s.movementCounter == 0
  }

  /** A master is ready to count once it has been set up and activated; until
      it is activated, and after it is deactivated, samples do nothing. */
  lemma ActivationGates(lib: Library, now: int, s: ActivityState, x: Sample)
    ensures Ready(Activate(Setup(true, now)))
    ensures OnRosAbsState(lib, Setup(true, now), x.axes, x.now) == Step(Setup(true, now), [])
    ensures OnRosAbsState(lib, Deactivate(s), x.axes, x.now) == Step(Deactivate(s), [])
  {
  }

  /** Up to the movement count, forward pushes only count up: the counter is
      the number of pushes, the pano and move clock are kept and no pano is
      emitted; only the turns change the pov. Without turns nothing at all is
      emitted. */
  lemma {:induction false} ForwardBuildUp(lib: Library, s: ActivityState, samples: seq<Sample>)
    requires Ready(s)
    requires |samples| <= InputMovementCount
    requires forall i :: 0 <= i < |samples| ==> ForwardPush(samples[i])
    requires OutsideCooldown(samples, s.lastMoveTime)
    ensures var r := RunAxis(lib, s, samples);
      && r.state == s.(model := s.model.(pov := r.state.model.pov), movementCounter := |samples|)
      && NoPano(r.out)
    ensures NoTurn(samples) ==> RunAxis(lib, s, samples) == Step(s.(movementCounter := |samples|), [])
  {
    if |samples| > 0 {
      var n := |samples| - 1;
      var prefix := samples[..n];
      var last := samples[n];
      assert forall i :: 0 <= i < n ==> prefix[i] == samples[i];
      assert NoTurn(samples) ==> NoTurn(prefix);
      ForwardBuildUp(lib, s, prefix);
      var before := RunAxis(lib, s, prefix);
      var st := OnRosAbsState(lib, before.state, last.axes, last.now);
      RunAxisLast(lib, s, samples);
      assert ForwardPush(last);
      CountsUp(n, s.lastMoveTime, MovementOf(last.axes), last.now);
      CountStep(lib, s, before.state, last, n + 1);
      NoPanoAppend(before.out, st.out);
    }
  }

  /** Up to the movement count, backward pushes only count down, with the
      same frame as `ForwardBuildUp`. */
  lemma {:induction false} BackwardBuildUp(lib: Library, s: ActivityState, samples: seq<Sample>)
    requires Ready(s)
    requires |samples| <= InputMovementCount
    requires forall i :: 0 <= i < |samples| ==> BackwardPush(samples[i])
    requires OutsideCooldown(samples, s.lastMoveTime)
    ensures var r := RunAxis(lib, s, samples);
      && r.state == s.(model := s.model.(pov := r.state.model.pov), movementCounter := -|samples|)
      && NoPano(r.out)
    ensures NoTurn(samples) ==> RunAxis(lib, s, samples) == Step(s.(movementCounter := -|samples|), [])
  {
    if |samples| > 0 {
      var n := |samples| - 1;
      var prefix := samples[..n];
      var last := samples[n];
      assert forall i :: 0 <= i < n ==> prefix[i] == samples[i];
      assert NoTurn(samples) ==> NoTurn(prefix);
      BackwardBuildUp(lib, s, prefix);
      var before := RunAxis(lib, s, prefix);
      var st := OnRosAbsState(lib, before.state, last.axes, last.now);
      RunAxisLast(lib, s, samples);
      assert BackwardPush(last);
      CountsDown(-n, s.lastMoveTime, MovementOf(last.axes), last.now);
      CountStep(lib, s, before.state, last, -n - 1);
      NoPanoAppend(before.out, st.out);
    }
  }

  /** Below the movement count, a forward push outside the cooldown only
      raises the counter. */
  lemma CountsUp(counter: int, since: int, movement: real, now: int)
    requires 0 <= counter < InputMovementCount
    requires movement > InputMovementThreshold && now - since >= InputMovementCooldown
    ensures Decide(counter, since, false, movement, now) == Decision(counter + 1, since, Stay)
  {
  }

  /** Above minus the movement count, a backward push outside the cooldown
      only lowers the counter. */
  lemma CountsDown(counter: int, since: int, movement: real, now: int)
    requires -InputMovementCount < counter <= 0
    requires movement < -InputMovementThreshold && now - since >= InputMovementCooldown
    ensures Decide(counter, since, false, movement, now) == Decision(counter - 1, since, Stay)
  {
  }

  /** One sample that only counts, from a state that differs from a ready
      one only in its pov and counter: only the pov (by the turn) and the
      counter change, and no pano is emitted; without a turn nothing is. */
  lemma CountStep(lib: Library, s: ActivityState, b: ActivityState, x: Sample, counter: int)
    requires Ready(s)
    requires b == s.(model := s.model.(pov := b.model.pov), movementCounter := b.movementCounter)
    requires Decide(b.movementCounter, s.lastMoveTime, false, MovementOf(x.axes), x.now)
          == Decision(counter, s.lastMoveTime, Stay)
    ensures var st := OnRosAbsState(lib, b, x.axes, x.now);
      && st.state == s.(model := s.model.(pov := st.state.model.pov), movementCounter := counter)
      && NoPano(st.out)
      && (x.axes.rz == 0 ==> st == Step(b.(movementCounter := counter), []))
  {
  }

  lemma NoPanoAppend(a: seq<Emit>, b: seq<Emit>)
    requires NoPano(a) && NoPano(b)
    ensures NoPano(a + b)
  {
  }

  /** Moving does not depend on the aggregation state. */
  lemma MoveIgnoresCounter(lib: Library, s: ActivityState, heading: real, counter: int, time: int)
    ensures MoveToward(lib, s.(movementCounter := counter, lastMoveTime := time), heading)
         == Step(MoveToward(lib, s, heading).state.(movementCounter := counter, lastMoveTime := time),
                 MoveToward(lib, s, heading).out)
  {
  }

  /** The counter passes the movement count on a forward push outside the
      cooldown: the forward move fires. */
  lemma FiresForward(since: int, movement: real, now: int)
    requires movement > InputMovementThreshold && now - since >= InputMovementCooldown
    ensures Decide(InputMovementCount, since, false, movement, now) == Decision(0, now, Forward)
  {
  }

  /** Likewise backward, past minus the movement count. */
  lemma FiresBackward(since: int, movement: real, now: int)
    requires movement < -InputMovementThreshold && now - since >= InputMovementCooldown
    ensures Decide(-InputMovementCount, since, false, movement, now) == Decision(0, now, Backward)
  {
  }

  /** The sample that fires a move, from a state that differs from a
      ready one only in its pov and counter: the state becomes the move's
      from the turned pov, with the move clock at the sample's time, and the
      output is the turn's pov (if any) followed by exactly that move. */
  lemma FireStep(lib: Library, s: ActivityState, b: ActivityState, x: Sample, move: Move)
    requires Ready(s) && move != Stay
    requires b == s.(model := s.model.(pov := b.model.pov), movementCounter := b.movementCounter)
    requires Decide(b.movementCounter, s.lastMoveTime, false, MovementOf(x.axes), x.now) == Decision(0, x.now, move)
    ensures var st := OnRosAbsState(lib, b, x.axes, x.now);
      var m := Perform(lib, s.(model := s.model.(pov := st.state.model.pov)), move);
      && st.state == m.state.(lastMoveTime := x.now)
      && st.out == (if x.axes.rz != 0 then StreetviewRos.SendPov(st.state.model.pov) else []) + m.out
  {
    var y := Yawed(lib, b, x.axes).(movementCounter := 0, lastMoveTime := x.now);
    var s2 := s.(model := s.model.(pov := y.model.pov));
    assert y == s2.(movementCounter := 0, lastMoveTime := x.now);
    var heading := if move == Forward then s2.model.pov.heading else s2.model.pov.heading - 180.0;
    MoveIgnoresCounter(lib, s2, heading, 0, x.now);
  }

  /** An output made of pano-free parts followed by `m` ends with exactly
      `m`, and nothing before it is a pano. */
  lemma EndsWith(a: seq<Emit>, o: seq<Emit>, m: seq<Emit>)
    requires NoPano(a) && NoPano(o)
    ensures var r := a + (o + m);
      && |m| <= |r| && r[|r| - |m|..] == m && NoPano(r[..|r| - |m|])
  {
    var r := a + (o + m);
    assert r[..|r| - |m|] == a + o;
    NoPanoAppend(a, o);
  }

  /** The first ten of a run of forward pushes emit no pano, and nothing
      at all without turns. */
  lemma ForwardPrefixes(lib: Library, s: ActivityState, samples: seq<Sample>)
    requires Ready(s)
    requires |samples| == InputMovementCount + 1
    requires forall i :: 0 <= i < |samples| ==> ForwardPush(samples[i])
    requires OutsideCooldown(samples, s.lastMoveTime)
    ensures forall n :: 0 <= n <= InputMovementCount ==> NoPano(RunAxis(lib, s, samples[..n]).out)
    ensures NoTurn(samples) ==>
      forall n :: 0 <= n <= InputMovementCount ==> RunAxis(lib, s, samples[..n]).out == []
  {
    forall n | 0 <= n <= InputMovementCount
      ensures NoPano(RunAxis(lib, s, samples[..n]).out)
      ensures NoTurn(samples) ==> RunAxis(lib, s, samples[..n]).out == []
    {
      assert forall i :: 0 <= i < n ==> samples[..n][i] == samples[i];
      ForwardBuildUp(lib, s, samples[..n]);
    }
  }

  /** The eleventh of a run of forward pushes, after the first ten: it
      leaves the state of the forward move from the turned pov, with the move
      clock at its time, and adds the turn's pov (if any) and that move to
      the pano-free output of the first ten. */
  lemma {:induction false} ForwardLast(lib: Library, s: ActivityState, samples: seq<Sample>)
    requires Ready(s)
    requires |samples| == InputMovementCount + 1
    requires forall i :: 0 <= i < |samples| ==> ForwardPush(samples[i])
    requires OutsideCooldown(samples, s.lastMoveTime)
    ensures var before := RunAxis(lib, s, samples[..|samples| - 1]);
      var last := samples[|samples| - 1];
      var st := OnRosAbsState(lib, before.state, last.axes, last.now);
      var m := MoveForward(lib, s.(model := s.model.(pov := st.state.model.pov)));
      && NoPano(before.out)
      && st.state == m.state.(lastMoveTime := last.now)
      && st.out == (if last.axes.rz != 0 then StreetviewRos.SendPov(st.state.model.pov) else []) + m.out
      && RunAxis(lib, s, samples) == Step(st.state, before.out + st.out)
  {
    var prefix := samples[..|samples| - 1];
    var last := samples[|samples| - 1];
    var before := RunAxis(lib, s, prefix);
    var st := OnRosAbsState(lib, before.state, last.axes, last.now);
    RunAxisLast(lib, s, samples);
    assert ForwardPush(last);
    ForwardBuildUp(lib, s, prefix);
    FiresForward(s.lastMoveTime, MovementOf(last.axes), last.now);
    FireStep(lib, s, before.state, last, Forward);
    assert MoveForward(lib, s.(model := s.model.(pov := st.state.model.pov)))
        == Perform(lib, s.(model := s.model.(pov := st.state.model.pov)), Forward);
  }

  /** The eleventh of a run of forward pushes makes the forward move. */
  lemma ForwardFires(lib: Library, s: ActivityState, samples: seq<Sample>)
    requires Ready(s)
    requires |samples| == InputMovementCount + 1
    requires forall i :: 0 <= i < |samples| ==> ForwardPush(samples[i])
    requires OutsideCooldown(samples, s.lastMoveTime)
    ensures var r := RunAxis(lib, s, samples);
      var m := MoveForward(lib, s.(model := s.model.(pov := r.state.model.pov)));
      && r.state == m.state.(lastMoveTime := samples[InputMovementCount].now)
      && |m.out| <= |r.out| && r.out[|r.out| - |m.out|..] == m.out
      && NoPano(r.out[..|r.out| - |m.out|])
  {
    var before := RunAxis(lib, s, samples[..|samples| - 1]);
    var last := samples[|samples| - 1];
    var st := OnRosAbsState(lib, before.state, last.axes, last.now);
    var m := MoveForward(lib, s.(model := s.model.(pov := st.state.model.pov)));
    var o := if last.axes.rz != 0 then StreetviewRos.SendPov(st.state.model.pov) else [];
    ForwardLast(lib, s, samples);
    EndsWith(before.out, o, m.out);
  }

  /** Without turns, the eleventh of a run of forward pushes makes exactly
      the forward move from the starting state. */
  lemma ForwardFiresStill(lib: Library, s: ActivityState, samples: seq<Sample>)
    requires Ready(s)
    requires |samples| == InputMovementCount + 1
    requires forall i :: 0 <= i < |samples| ==> ForwardPush(samples[i])
    requires OutsideCooldown(samples, s.lastMoveTime)
    requires NoTurn(samples)
    ensures RunAxis(lib, s, samples)
         == Step(MoveForward(lib, s).state.(lastMoveTime := samples[InputMovementCount].now), MoveForward(lib, s).out)
  {
    var prefix := samples[..|samples| - 1];
    var last := samples[|samples| - 1];
    RunAxisLast(lib, s, samples);
    assert ForwardPush(last) && last.axes.rz == 0;
    assert NoTurn(prefix);
    ForwardBuildUp(lib, s, prefix);
    FiresForward(s.lastMoveTime, MovementOf(last.axes), last.now);
    FireStep(lib, s, s.(movementCounter := InputMovementCount), last, Forward);
  }

  /** Eleven consecutive forward pushes outside the cooldown, turning or not:
      the first ten emit no pano; the eleventh ends the output with exactly
      the forward move toward the heading as turned by all eleven samples,
      with nothing before it a pano, and leaves the state of that move with
      the counter restarted and the move clock at its time. Without turns,
      this is exactly the forward move from the starting state. */
  lemma DebounceForward(lib: Library, s: ActivityState, samples: seq<Sample>)
    requires Ready(s)
    requires |samples| == InputMovementCount + 1
    requires forall i :: 0 <= i < |samples| ==> ForwardPush(samples[i])
    requires OutsideCooldown(samples, s.lastMoveTime)
    ensures forall n :: 0 <= n <= InputMovementCount ==> NoPano(RunAxis(lib, s, samples[..n]).out)
    ensures var r := RunAxis(lib, s, samples);
      var m := MoveForward(lib, s.(model := s.model.(pov := r.state.model.pov)));
      && r.state == m.state.(lastMoveTime := samples[InputMovementCount].now)
      && |m.out| <= |r.out| && r.out[|r.out| - |m.out|..] == m.out
      && NoPano(r.out[..|r.out| - |m.out|])
    ensures NoTurn(samples) ==>
      && (forall n :: 0 <= n <= InputMovementCount ==> RunAxis(lib, s, samples[..n]).out == [])
      && RunAxis(lib, s, samples)
         == Step(MoveForward(lib, s).state.(lastMoveTime := samples[InputMovementCount].now),
                 MoveForward(lib, s).out)
  {
    ForwardPrefixes(lib, s, samples);
    ForwardFires(lib, s, samples);
    if NoTurn(samples) {
      ForwardFiresStill(lib, s, samples);
    }
  }

  /** The first ten of a run of backward pushes emit no pano, and nothing
      at all without turns. */
  lemma BackwardPrefixes(lib: Library, s: ActivityState, samples: seq<Sample>)
    requires Ready(s)
    requires |samples| == InputMovementCount + 1
    requires forall i :: 0 <= i < |samples| ==> BackwardPush(samples[i])
    requires OutsideCooldown(samples, s.lastMoveTime)
    ensures forall n :: 0 <= n <= InputMovementCount ==> NoPano(RunAxis(lib, s, samples[..n]).out)
    ensures NoTurn(samples) ==>
      forall n :: 0 <= n <= InputMovementCount ==> RunAxis(lib, s, samples[..n]).out == []
  {
    forall n | 0 <= n <= InputMovementCount
      ensures NoPano(RunAxis(lib, s, samples[..n]).out)
      ensures NoTurn(samples) ==> RunAxis(lib, s, samples[..n]).out == []
    {
      assert forall i :: 0 <= i < n ==> samples[..n][i] == samples[i];
      BackwardBuildUp(lib, s, samples[..n]);
    }
  }

  /** The eleventh of a run of backward pushes, after the first ten: it
      leaves the state of the backward move from the turned pov, with the move
      clock at its time, and adds the turn's pov (if any) and that move to
      the pano-free output of the first ten. */
  lemma {:induction false} BackwardLast(lib: Library, s: ActivityState, samples: seq<Sample>)
    requires Ready(s)
    requires |samples| == InputMovementCount + 1
    requires forall i :: 0 <= i < |samples| ==> BackwardPush(samples[i])
    requires OutsideCooldown(samples, s.lastMoveTime)
    ensures var before := RunAxis(lib, s, samples[..|samples| - 1]);
      var last := samples[|samples| - 1];
      var st := OnRosAbsState(lib, before.state, last.axes, last.now);
      var m := MoveBackward(lib, s.(model := s.model.(pov := st.state.model.pov)));
      && NoPano(before.out)
      && st.state == m.state.(lastMoveTime := last.now)
      && st.out == (if last.axes.rz != 0 then StreetviewRos.SendPov(st.state.model.pov) else []) + m.out
      && RunAxis(lib, s, samples) == Step(st.state, before.out + st.out)
  {
    var prefix := samples[..|samples| - 1];
    var last := samples[|samples| - 1];
    var before := RunAxis(lib, s, prefix);
    var st := OnRosAbsState(lib, before.state, last.axes, last.now);
    RunAxisLast(lib, s, samples);
    assert BackwardPush(last);
    BackwardBuildUp(lib, s, prefix);
    FiresBackward(s.lastMoveTime, MovementOf(last.axes), last.now);
    FireStep(lib, s, before.state, last, Backward);
    assert MoveBackward(lib, s.(model := s.model.(pov := st.state.model.pov)))
        == Perform(lib, s.(model := s.model.(pov := st.state.model.pov)), Backward);
  }

  /** The eleventh of a run of backward pushes makes the backward move. */
  lemma BackwardFires(lib: Library, s: ActivityState, samples: seq<Sample>)
    requires Ready(s)
    requires |samples| == InputMovementCount + 1
    requires forall i :: 0 <= i < |samples| ==> BackwardPush(samples[i])
    requires OutsideCooldown(samples, s.lastMoveTime)
    ensures var r := RunAxis(lib, s, samples);
      var m := MoveBackward(lib, s.(model := s.model.(pov := r.state.model.pov)));
      && r.state == m.state.(lastMoveTime := samples[InputMovementCount].now)
      && |m.out| <= |r.out| && r.out[|r.out| - |m.out|..] == m.out
      && NoPano(r.out[..|r.out| - |m.out|])
  {
    var before := RunAxis(lib, s, samples[..|samples| - 1]);
    var last := samples[|samples| - 1];
    var st := OnRosAbsState(lib, before.state, last.axes, last.now);
    var m := MoveBackward(lib, s.(model := s.model.(pov := st.state.model.pov)));
    var o := if last.axes.rz != 0 then StreetviewRos.SendPov(st.state.model.pov) else [];
    BackwardLast(lib, s, samples);
    EndsWith(before.out, o, m.out);
  }

  /** Without turns, the eleventh of a run of backward pushes makes exactly
      the backward move from the starting state. */
  lemma BackwardFiresStill(lib: Library, s: ActivityState, samples: seq<Sample>)
    requires Ready(s)
    requires |samples| == InputMovementCount + 1
    requires forall i :: 0 <= i < |samples| ==> BackwardPush(samples[i])
    requires OutsideCooldown(samples, s.lastMoveTime)
    requires NoTurn(samples)
    ensures RunAxis(lib, s, samples)
         == Step(MoveBackward(lib, s).state.(lastMoveTime := samples[InputMovementCount].now), MoveBackward(lib, s).out)
  {
    var prefix := samples[..|samples| - 1];
    var last := samples[|samples| - 1];
    RunAxisLast(lib, s, samples);
    assert BackwardPush(last) && last.axes.rz == 0;
    assert NoTurn(prefix);
    BackwardBuildUp(lib, s, prefix);
    FiresBackward(s.lastMoveTime, MovementOf(last.axes), last.now);
    FireStep(lib, s, s.(movementCounter := -InputMovementCount), last, Backward);
  }

  /** Eleven consecutive backward pushes outside the cooldown, turning or
      not: the first ten emit no pano, and the eleventh makes exactly the
      backward move away from the heading as turned by all eleven samples. */
  lemma DebounceBackward(lib: Library, s: ActivityState, samples: seq<Sample>)
    requires Ready(s)
    requires |samples| == InputMovementCount + 1
    requires forall i :: 0 <= i < |samples| ==> BackwardPush(samples[i])
    requires OutsideCooldown(samples, s.lastMoveTime)
    ensures forall n :: 0 <= n <= InputMovementCount ==> NoPano(RunAxis(lib, s, samples[..n]).out)
    ensures var r := RunAxis(lib, s, samples);
      var m := MoveBackward(lib, s.(model := s.model.(pov := r.state.model.pov)));
      && r.state == m.state.(lastMoveTime := samples[InputMovementCount].now)
      && |m.out| <= |r.out| && r.out[|r.out| - |m.out|..] == m.out
      && NoPano(r.out[..|r.out| - |m.out|])
    ensures NoTurn(samples) ==>
      && (forall n :: 0 <= n <= InputMovementCount ==> RunAxis(lib, s, samples[..n]).out == [])
      && RunAxis(lib, s, samples)
         == Step(MoveBackward(lib, s).state.(lastMoveTime := samples[InputMovementCount].now),
                 MoveBackward(lib, s).out)
  {
    BackwardPrefixes(lib, s, samples);
    BackwardFires(lib, s, samples);
    if NoTurn(samples) {
      BackwardFiresStill(lib, s, samples);
    }
  }

  /** One sample within the cooldown: the pano and the move clock stay, no
      pano is emitted, and an acting master's counter drops to zero. */
  lemma HeldStep(lib: Library, b: ActivityState, x: Sample)
    requires x.now - b.lastMoveTime < InputMovementCooldown
    ensures var st := OnRosAbsState(lib, b, x.axes, x.now);
      && st.state.model.pano == b.model.pano
      && st.state.lastMoveTime == b.lastMoveTime
      && NoPano(st.out)
      && (b.master && b.activated ==> st.state.movementCounter == 0)
  {
  }

  /** Within the cooldown after a move no sample moves, whatever it pushes:
      the pano stays, no pano is emitted, the move clock keeps its time and
      the counter is held at zero. */
  lemma {:induction false} CooldownHolds(lib: Library, s: ActivityState, samples: seq<Sample>)
    requires InsideCooldown(samples, s.lastMoveTime)
    ensures var r := RunAxis(lib, s, samples);
      && r.state.model.pano == s.model.pano
      && r.state.lastMoveTime == s.lastMoveTime
      && NoPano(r.out)
      && (|samples| > 0 && s.master && s.activated ==> r.state.movementCounter == 0)
    decreases |samples|
  {
    if |samples| > 0 {
      var n := |samples| - 1;
      var prefix := samples[..n];
      assert forall i :: 0 <= i < n ==> prefix[i] == samples[i];
      CooldownHolds(lib, s, prefix);
      var before := RunAxis(lib, s, prefix);
      var last := samples[n];
      var step := OnRosAbsState(lib, before.state, last.axes, last.now);
      HeldStep(lib, before.state, last);
      RunAxisLast(lib, s, samples);
      NoPanoAppend(before.out, step.out);
    }
  }

  /** After the eleventh forward push has moved, the samples handled next
      within the cooldown that follows, whatever they push, move no further:
      the pano that move reached stays, no pano is emitted, and the move
      clock keeps the time of the move. */
  lemma DebounceThenCooldown(lib: Library, s: ActivityState, samples: seq<Sample>, later: seq<Sample>)
    requires Ready(s)
    requires |samples| == InputMovementCount + 1
    requires forall i :: 0 <= i < |samples| ==> ForwardPush(samples[i])
    requires OutsideCooldown(samples, s.lastMoveTime)
    requires InsideCooldown(later, samples[InputMovementCount].now)
    ensures var moved := RunAxis(lib, s, samples);
      var after := RunAxis(lib, moved.state, later);
      && moved.state.lastMoveTime == samples[InputMovementCount].now
      && after.state.model.pano == moved.state.model.pano
      && after.state.lastMoveTime == samples[InputMovementCount].now
      && NoPano(after.out)
  {
    DebounceForward(lib, s, samples);
    CooldownHolds(lib, RunAxis(lib, s, samples).state, later);
  }
}
