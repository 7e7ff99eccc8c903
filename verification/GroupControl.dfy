/** One node of the group-control flood (app_espnow.c of the led_light example and of the
    provisioning controller): sequence numbers, reset packets, and the one-second debounce
    between packets of different kinds. Times are microseconds. */
module GroupControls {
  import opened Seqs
  import opened Words

  type Time = x: int | 0 <= x <= 0x7FFF_FFFF_FFFF_FFFF

  const HOLD: Time := 1_000_000
  const TIME_MAX: Time := 0x7FFF_FFFF_FFFF_FFFF
  const MAX_RETRY: nat := 2

  datatype Mode = Invalid | Control | Reset

  /** The statics of espnow_task: current_seq, last_espnow_msg_mode, time_stamp. */
  datatype State = State(current: U32, last: Mode, stamp: Time)

  const START := State(0, Invalid, 0)

  function Classify(s: State, packet: U32): Mode
  {
    if packet > s.current then Control else if packet == 0 && s.current != 0 then Reset else Invalid
  }

  /** Elapsed time as espnow_task computes it, across a wrap of the clock as well. */
  function Elapsed(now: Time, stamp: Time): int
  {
    if now >= stamp then now - stamp else TIME_MAX - stamp + now
  }

  predicate Debounced(s: State, packet: U32, now: Time)
  {
    var mode := Classify(s, packet);
    mode != Invalid && s.last != Invalid && s.last != mode && Elapsed(now, s.stamp) < HOLD
  }

  /** The kind under which the packet is accepted and forwarded; Invalid when it is not. */
  function Accepted(s: State, packet: U32, now: Time): Mode
  {
    if Debounced(s, packet, now) then Invalid else Classify(s, packet)
  }

  /** now is the clock at the debounce test, after the clock once the packet is forwarded. */
  function Receive(s: State, packet: U32, now: Time, after: Time): State
  {
    if Debounced(s, packet, now) then s.(current := 0)
    else if Accepted(s, packet, now) == Invalid then s
    else State(packet, Accepted(s, packet, now), after)
  }

  /** espnow_data_prepare: the next number, in 32-bit arithmetic, or 0 for a reset. */
  function Prepared(s: State, reset: bool): State
  {
    s.(current := if reset then 0 else (s.current + 1) % 0x1_0000_0000)
  }

  class GroupControl {
    var currentSeq: U32
    var lastMode: Mode
    var timeStamp: Time
    // the retransmission slot sent_msgs
    var retryTimes: nat
    var maxRetry: nat
    var sentMsg: Option<U32>

    ghost function Abs(): State
      reads this
    {
      State(currentSeq, lastMode, timeStamp)
    }

    /** Retransmissions the timer will still make, and of what. */
    ghost function Owed(): (int, Option<U32>)
      reads this
    {
      (if maxRetry > retryTimes then maxRetry - retryTimes else 0, sentMsg)
    }

    constructor ()
      ensures Abs() == START && Owed() == (0, None)
    {
      currentSeq, lastMode, timeStamp := 0, Invalid, 0;
      retryTimes, maxRetry, sentMsg := 0, 0, None;
    }

    /** One turn of espnow_task on a well-formed packet of this mesh. */
    method OnPacket(packet: U32, now: Time, after: Time) returns (forwarded: bool)
      modifies `currentSeq, `lastMode, `timeStamp
      ensures Abs() == Receive(old(Abs()), packet, now, after)
      ensures forwarded <==> Accepted(old(Abs()), packet, now) != Invalid
    {
      var mode := Invalid;
      if packet > currentSeq {
        mode := Control;
      } else if packet == 0 && currentSeq != 0 {
        mode := Reset;
      }
      if mode != Invalid && lastMode != Invalid && lastMode != mode {
        var interval := if now >= timeStamp then now - timeStamp else TIME_MAX - timeStamp + now;
        mode := if interval < HOLD then Invalid else mode;
        if mode == Invalid {
          currentSeq := 0;
        }
      }
      forwarded := mode != Invalid;
      if forwarded {
        currentSeq := packet;
        lastMode, timeStamp := mode, after;
      }
    }

    /** esp_now_send_group_control: number a packet, send it, and arm two retransmissions. */
    method Send(reset: bool) returns (packet: U32)
      modifies this
      ensures Abs() == Prepared(old(Abs()), reset) && packet == Abs().current
      ensures Owed() == (MAX_RETRY, Some(packet))
      ensures !reset && old(currentSeq) < 0xFFFF_FFFF ==> packet == old(currentSeq) + 1
      ensures reset || old(currentSeq) == 0xFFFF_FFFF ==> packet == 0
    {
      if reset {
        currentSeq := 0;
      } else {
        currentSeq := (currentSeq + 1) % 0x1_0000_0000;
      }
      packet := currentSeq;
      retryTimes, maxRetry, sentMsg := 0, MAX_RETRY, Some(packet);
    }

    /** esp_now_send_timer_cb, every 100 ms: the root retransmits while the slot allows it,
        then clears the slot. */
    method OnTimer(level: nat) returns (resent: Option<U32>)
      modifies `retryTimes, `maxRetry, `sentMsg
      ensures Abs() == old(Abs())
      ensures var (left, packet) := old(Owed());
        if level == 1 && left > 0 then resent == packet && Owed() == (left - 1, packet)
        else resent == None && Owed().0 == left
    {
      resent := None;
      if level == 1 {
        if maxRetry > retryTimes {
          retryTimes := retryTimes + 1;
          resent := sentMsg;
        } else if maxRetry != 0 {
          retryTimes, maxRetry, sentMsg := 0, 0, None;
        }
      }
    }
  }

  // ---- the debounce, over every run of one node

  datatype Input = Packet(packet: U32, now: Time, after: Time) | Originate(reset: bool)

  datatype Acceptance = Acceptance(mode: Mode, decided: Time, stamped: Time)

  function StepInput(s: State, i: Input): State
  {
    match i
    case Packet(packet, now, after) => Receive(s, packet, now, after)
    case Originate(reset) => Prepared(s, reset)
  }

  function Run(s: State, inputs: seq<Input>): State
  {
    if inputs == [] then s else StepInput(Run(s, inputs[..|inputs| - 1]), inputs[|inputs| - 1])
  }

  function Log(s: State, inputs: seq<Input>): seq<Acceptance>
  {
    if inputs == [] then []
    else
      var before := Log(s, inputs[..|inputs| - 1]);
      match inputs[|inputs| - 1]
      case Packet(packet, now, after) =>
        var mode := Accepted(Run(s, inputs[..|inputs| - 1]), packet, now);
        if mode == Invalid then before else before + [Acceptance(mode, now, after)]
      case Originate(_) => before
  }

  /** Successive clock readings never go back. */
  ghost predicate Monotone(inputs: seq<Input>)
  {
    && (forall i :: 0 <= i < |inputs| && inputs[i].Packet? ==> inputs[i].now <= inputs[i].after)
    && (forall i, j :: 0 <= i < j < |inputs| && inputs[i].Packet? && inputs[j].Packet? ==> inputs[i].after <= inputs[j].now)
  }

  /** Between two readings of a clock that starts again at 0 when it reaches TIME_MAX, the
      elapsed time is computed right, as long as it is shorter than one round. */
  lemma ElapsedAcrossWrap(earlier: nat, later: nat)
    requires earlier <= later < earlier + TIME_MAX
    ensures Elapsed(later % TIME_MAX, earlier % TIME_MAX) == later - earlier
  {
    var d := later - earlier;
    var r := earlier % TIME_MAX;
    if r + d < TIME_MAX {
      assert later % TIME_MAX == r + d;
    } else {
      assert later % TIME_MAX == r + d - TIME_MAX;
    }
  }

  /** Whatever the clock does: between two packets accepted one after the other in different
      modes the node has counted a second. */
  lemma {:induction false} SecondCounted(inputs: seq<Input>, k: int)
    requires 0 <= k < |Log(START, inputs)| - 1
    requires Log(START, inputs)[k].mode != Log(START, inputs)[k + 1].mode
    ensures Elapsed(Log(START, inputs)[k + 1].decided, Log(START, inputs)[k].stamped) >= 1_000_000
  {
    var before := inputs[..|inputs| - 1];
    if k + 1 < |Log(START, before)| {
      SecondCounted(before, k);
    } else {
      StampOfLast(before);
    }
  }

  lemma {:induction false} StampOfLast(inputs: seq<Input>)
    ensures var s, log := Run(START, inputs), Log(START, inputs);
      && (s.last == Invalid <==> log == [])
      && (log != [] ==> s.last == log[|log| - 1].mode && s.stamp == log[|log| - 1].stamped)
      && (log != [] ==> exists i :: 0 <= i < |inputs| && inputs[i].Packet? && inputs[i].after == s.stamp)
  {
    if inputs != [] {
      StampOfLast(inputs[..|inputs| - 1]);
      var last := |inputs| - 1;
      if Log(START, inputs) != [] {
        if |Log(START, inputs)| > |Log(START, inputs[..last])| {
          assert inputs[last].after == Run(START, inputs).stamp;
        } else {
          var i :| 0 <= i < last && inputs[..last][i].Packet? && inputs[..last][i].after == Run(START, inputs[..last]).stamp;
          assert inputs[i].after == Run(START, inputs).stamp;
        }
      }
    }
  }

  /** Two packets accepted one after the other in different modes are a second apart. */
  lemma {:induction false} ModesApart(inputs: seq<Input>, k: nat)
    requires Monotone(inputs) && k + 1 < |Log(START, inputs)|
    requires Log(START, inputs)[k].mode != Log(START, inputs)[k + 1].mode
    ensures Log(START, inputs)[k + 1].decided - Log(START, inputs)[k].stamped >= 1_000_000
  {
    var last := |inputs| - 1;
    var before := Log(START, inputs[..last]);
    if k + 1 < |before| {
      ModesApart(inputs[..last], k);
    } else {
      StampOfLast(inputs[..last]);
      var i :| 0 <= i < last && inputs[..last][i].Packet? && inputs[..last][i].after == Run(START, inputs[..last]).stamp;
      assert inputs[i].after <= inputs[last].now;
    }
  }

  /** Exactly the packets of the other kind within the second are swallowed: nothing is
      forwarded, the last mode and its time stamp stay, and the node forgets its sequence
      number. Every other control or reset packet is accepted. */
  lemma SwallowedForgets(inputs: seq<Input>, packet: U32, now: Time, after: Time)
    requires Monotone(inputs + [Packet(packet, now, after)])
    ensures var s, s' := Run(START, inputs), Run(START, inputs + [Packet(packet, now, after)]);
      var log, log' := Log(START, inputs), Log(START, inputs + [Packet(packet, now, after)]);
      var mode := if packet > s.current then Control else if packet == 0 < s.current then Reset else Invalid;
      if mode == Invalid then log' == log && s' == s
      else if s.last != Invalid && s.last != mode && now - s.stamp < 1_000_000
      then log' == log && s' == State(0, s.last, s.stamp)
      else log' == log + [Acceptance(mode, now, after)] && s' == State(packet, mode, after)
  {
    var all := inputs + [Packet(packet, now, after)];
    assert all[..|all| - 1] == inputs;
    assert Monotone(inputs) by {
      assert forall i :: 0 <= i < |inputs| ==> all[i] == inputs[i];
    }
    StampOfLast(inputs);
    var s := Run(START, inputs);
    if s.last != Invalid {
      var i :| 0 <= i < |inputs| && inputs[i].Packet? && inputs[i].after == s.stamp;
      assert all[i].after <= all[|inputs|].now;
    }
  }

  /** What takes a node's number back to 0: a packet swallowed by the debounce, a reset
      received or originated, and the wrap of the 32-bit number. */
  predicate Zeroes(s: State, i: Input)
  {
    match i
    case Packet(packet, now, _) => Debounced(s, packet, now) || Accepted(s, packet, now) == Reset
    case Originate(reset) => reset || s.current == 0xFFFF_FFFF
  }

  /** Nothing else ever lowers it. */
  lemma OnlyZeroingLowers(s: State, i: Input)
    ensures s.current > 0 ==> (StepInput(s, i).current < s.current <==> Zeroes(s, i))
    ensures !Zeroes(s, i) ==> StepInput(s, i).current >= s.current
  {
  }

  ghost predicate ZeroesAt(inputs: seq<Input>, k: int)
  {
    0 <= k < |inputs| && Zeroes(Run(START, inputs[..k]), inputs[k])
  }

  ghost predicate AcceptedAt(inputs: seq<Input>, i: int, p: U32)
  {
    && 0 <= i < |inputs| && inputs[i].Packet? && inputs[i].packet == p
    && Accepted(Run(START, inputs[..i]), p, inputs[i].now) != Invalid
  }

  /** At k the number went back to 0, and it has stayed below p since. */
  ghost predicate LowSince(inputs: seq<Input>, k: int, p: U32)
  {
    ZeroesAt(inputs, k) && forall m :: k < m <= |inputs| ==> Run(START, inputs[..m]).current < p
  }

  lemma LowSinceSnoc(inputs: seq<Input>, k: int, p: U32)
    requires inputs != [] && LowSince(inputs[..|inputs| - 1], k, p) && Run(START, inputs).current < p
    ensures LowSince(inputs, k, p)
  {
    var before := inputs[..|inputs| - 1];
    assert before[..k] == inputs[..k];
    forall m | k < m <= |inputs| ensures Run(START, inputs[..m]).current < p {
      if m < |inputs| {
        assert before[..m] == inputs[..m];
      } else {
        assert inputs[..m] == inputs;
      }
    }
  }

  lemma LowSinceLast(inputs: seq<Input>, p: U32)
    requires inputs != [] && Run(START, inputs[..|inputs| - 1]).current >= p > Run(START, inputs).current
    ensures LowSince(inputs, |inputs| - 1, p)
  {
    OnlyZeroingLowers(Run(START, inputs[..|inputs| - 1]), inputs[|inputs| - 1]);
    assert inputs[..|inputs|] == inputs;
  }

  lemma {:induction false} FellBelow(inputs: seq<Input>, i: nat, p: U32)
    requires i < |inputs| && Run(START, inputs[..i + 1]).current >= p > Run(START, inputs).current
    ensures exists k :: i < k && LowSince(inputs, k, p)
    decreases |inputs|
  {
    var n := |inputs| - 1;
    var before := inputs[..n];
    assert inputs[..n + 1] == inputs;
    assert i < n ==> before[..i + 1] == inputs[..i + 1];
    if Run(START, before).current < p {
      FellBelow(before, i, p);
      var k :| i < k && LowSince(before, k, p);
      LowSinceSnoc(inputs, k, p);
    } else {
      LowSinceLast(inputs, p);
    }
  }

  /** The last acceptance was that of a reset, less than a second ago. */
  predicate JustReset(log: seq<Acceptance>, now: Time)
  {
    log != [] && var last := log[|log| - 1]; last.mode == Reset && now - last.stamped < HOLD
  }

  /** The exact condition under which a packet is accepted, and forwarded, again: on every run
      with a monotone clock, a packet accepted at i is accepted again at the end iff in
      between the number went back to 0 and stayed below it, and no reset was accepted within
      the second. */
  lemma AcceptedAgainIff(inputs: seq<Input>, i: nat, p: U32, now: Time, after: Time)
    requires Monotone(inputs + [Packet(p, now, after)]) && p > 0 && AcceptedAt(inputs, i, p)
    ensures AcceptedAt(inputs + [Packet(p, now, after)], |inputs|, p) <==>
      (exists k :: i < k && LowSince(inputs, k, p)) && !JustReset(Log(START, inputs), now)
  {
    var all := inputs + [Packet(p, now, after)];
    assert all[..|inputs|] == inputs && all[|inputs|] == Packet(p, now, after);
    BelowIff(inputs, i, p);
    if p > Run(START, inputs).current {
      DebounceOnLog(inputs, p, now, after);
    }
  }

  lemma BelowIff(inputs: seq<Input>, i: nat, p: U32)
    requires p > 0 && AcceptedAt(inputs, i, p)
    ensures Run(START, inputs).current < p <==> exists k :: i < k && LowSince(inputs, k, p)
  {
    assert inputs[..i + 1][..i] == inputs[..i] && inputs[..|inputs|] == inputs;
    if Run(START, inputs).current < p {
      FellBelow(inputs, i, p);
    }
  }

  /** The debounce, told from the log. */
  lemma DebounceOnLog(inputs: seq<Input>, p: U32, now: Time, after: Time)
    requires Monotone(inputs + [Packet(p, now, after)]) && p > Run(START, inputs).current
    ensures Debounced(Run(START, inputs), p, now) <==> JustReset(Log(START, inputs), now)
  {
    var all := inputs + [Packet(p, now, after)];
    assert Monotone(inputs) by {
      assert forall i :: 0 <= i < |inputs| ==> all[i] == inputs[i];
    }
    StampOfLast(inputs);
    var s := Run(START, inputs);
    if s.last != Invalid {
      var i :| 0 <= i < |inputs| && inputs[i].Packet? && inputs[i].after == s.stamp;
      assert all[i].after <= all[|inputs|].now;
    }
  }

  /** A run on which packet 1 is accepted twice: the reset in between is swallowed, yet it
      zeroes the number. */
  lemma AcceptedTwice()
    ensures var run := [Packet(1, 0, 0)] + [Packet(0, 10, 10)] + [Packet(1, 20, 20)];
      Monotone(run) && AcceptedAt(run, 0, 1) && AcceptedAt(run, 2, 1)
  {
    var run := [Packet(1, 0, 0)] + [Packet(0, 10, 10)] + [Packet(1, 20, 20)];
    assert run[..0] == [] && run[..1] == [] + [Packet(1, 0, 0)] && run[..2] == [Packet(1, 0, 0)] + [Packet(0, 10, 10)];
    RunSnoc([], Packet(1, 0, 0));
    RunSnoc([Packet(1, 0, 0)], Packet(0, 10, 10));
    assert [] + [Packet(1, 0, 0)] == [Packet(1, 0, 0)];
  }

  lemma RunSnoc(inputs: seq<Input>, i: Input)
    ensures Run(START, inputs + [i]) == StepInput(Run(START, inputs), i)
  {
    assert (inputs + [i])[..|inputs|] == inputs;
  }
}
