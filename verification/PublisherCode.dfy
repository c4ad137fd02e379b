/** The publisher's own code, with the broker and the watchers acting between its calls, as runs
    of the state machine. */
module PublisherCode {
  import opened BuildTypes
  import opened Publisher

  datatype Sending = Delivered | Refused | Panics

  /** Some run leads to the state. */
  ghost predicate Reachable(s: State) {
    exists steps :: Exec(INIT, steps) == s
  }

  lemma ReachableNext(s: State, step: Step)
    requires Reachable(s)
    ensures Reachable(Apply(s, step))
  {
    var steps :| Exec(INIT, steps) == s;
    ExecNext(steps, step);
  }

  /** Some run leads from the one state to the other. */
  ghost predicate Leads(s: State, s': State) {
    exists steps :: Exec(s, steps) == s'
  }

  lemma LeadsAlong(first: seq<Step>, steps: seq<Step>)
    requires first <= steps
    ensures Leads(Exec(INIT, first), Exec(INIT, steps))
  {
    ExecAppend(INIT, first, steps[|first|..]);
    assert first + steps[|first|..] == steps;
  }

  lemma ExecNext(steps: seq<Step>, step: Step)
    ensures Exec(INIT, steps + [step]) == Apply(Exec(INIT, steps), step)
  {
    assert (steps + [step])[..|steps|] == steps;
  }

  lemma ReachableIsSound(s: State)
    requires Reachable(s)
    ensures Inv(s)
  {
    var steps :| Exec(INIT, steps) == s;
    Safe(steps);
  }

  lemma LossCanBeSignalled() returns (s: State)
    ensures Reachable(s) && s.ready && s.call == Idle && s.watchers == [Signalling] && |s.links| == 1
  {
    var s1 := Apply(INIT, DialSucceeds(true));
    var s2 := Apply(s1, Register(0));
    var s3 := Apply(s2, Lose(0));
    s := Apply(s3, Notice(0));
    assert Exec(INIT, []) == INIT;
    ReachableNext(INIT, DialSucceeds(true));
    ReachableNext(s1, Register(0));
    ReachableNext(s2, Lose(0));
    ReachableNext(s3, Notice(0));
  }

  /** A reconnect can get a connection but no channel on it ... */
  lemma ChannelCanBeMissing() returns (s: State)
    ensures Reachable(s) && s.ready && s.call == Idle && s.channel.None? && !AnyPending(s)
  {
    var lost := LossCanBeSignalled();
    assert Pending(lost, 0);
    ReachableNext(lost, Push("", 0));
    var pushed := Apply(lost, Push("", 0));
    ReachableNext(pushed, DialSucceeds(false));
    s := Apply(pushed, DialSucceeds(false));
    assert s.watchers == [Done, Starting];
  }

  /** ... and then the next push panics. */
  lemma PushCanPanic()
    ensures exists s :: Reachable(s) && s.call.Panicked?
  {
    var s := ChannelCanBeMissing();
    ReachableNext(s, Push("", 0));
    ReachableNext(Apply(s, Push("", 0)), Declare(false));
  }

  /** One more call is over, with this outcome and at most five dials. */
  ghost predicate Logged(before: seq<Record>, after: seq<Record>, message: Option<string>, ok: bool) {
    && before <= after && |after| == |before| + 1
    && after[|before|].message == message && after[|before|].ok == ok && after[|before|].dials <= 5
  }

  /** One more call is over, without a connection: it has dialed five times. */
  ghost predicate GivenUp(before: seq<Record>, after: seq<Record>, message: Option<string>) {
    Logged(before, after, message, false) && after[|before|].dials == 5
  }

  /** A dial has got a connection: without a channel the call is over, and so is that of the constructor; a push
      goes on. */
  ghost predicate Settled(s: State, s': State, ok: bool, message: Option<string>, dials: nat) {
    && (!ok ==> s'.call == Idle && s'.ready == s.ready && Logged(s.records, s'.records, message, false))
    && (ok && message.Some? ==>
          s'.call == Declaring(message.value, dials + 1) && s'.ready == s.ready && s'.records == s.records)
    && (ok && message.None? ==> s'.call == Idle && s'.ready && Logged(s.records, s'.records, None, true))
  }

  lemma DialSettles(s: State, ok: bool)
    requires s.call.Connecting? && s.call.dials < CONNECTION_RETRY_LIMIT
    ensures Settled(s, Dialed(s, ok), ok, s.call.message, s.call.dials) && (ok <==> Dialed(s, ok).channel.Some?)
  {
  }

  /** The broker or the network gets in the way. */
  predicate Adverse(step: Step) {
    match step
    case DialSucceeds(channelOpens) => !channelOpens
    case Declare(fails) => fails
    case Publish(fails) => fails
    case _ => step.DialFails? || step.Lose? || step.CloseChannel?
  }

  predicate ByOthers(step: Step) {
    step.Lose? || step.CloseChannel? || step.Register? || step.Notice?
  }

  class AmqpPublisher {
    var conn: Option<nat>
    var channel: Option<nat>
    var channelOpen: bool

    // what is outside the publisher
    var links: seq<Link>
    var watchers: seq<Watcher>
    var broker: seq<string>

    // bookkeeping
    ghost var ready: bool
    ghost var call: Call
    ghost var records: seq<Record>
    ghost var taken: seq<nat>
    ghost var trace: seq<Step>  // the run so far
    ghost var faults: nat  // calls that have failed, connections lost and channels closed

    ghost function View(): State
      reads this
    {
      State(links, watchers, conn, channel, channelOpen, ready, call, broker, records, taken, false)
    }

    ghost predicate Valid()
      reads this
    {
      View() == Exec(INIT, trace)
    }

    /** The fields now say what the step makes of the state before. */
    ghost method Took(before: State, step: Step)
      requires before == Exec(INIT, trace) && View() == Apply(before, step)
      modifies this`trace, this`faults
      ensures Valid() && trace == old(trace) + [step] && faults == old(faults) + if Adverse(step) then 1 else 0
    {
      ExecNext(trace, step);
      trace, faults := trace + [step], faults + if Adverse(step) then 1 else 0;
    }

    /** The broker may lose connections and watchers may run, any number of times. */
    method Others()
      requires Valid()
      modifies this`trace, this`faults, this`links, this`watchers, this`channelOpen
      ensures Valid() && old(trace) <= trace && old(faults) <= faults
      ensures faults == old(faults) && Usable(old(View())) ==> Usable(View())
      ensures Usable(View()) ==> Usable(old(View()))
    {
      var turns: int := *;
      while turns > 0
        invariant Valid() && old(trace) <= trace && old(faults) <= faults
        invariant faults == old(faults) && Usable(old(View())) ==> Usable(View())
        invariant Usable(View()) ==> Usable(old(View()))
      {
        var step: Step := *;
        if ByOthers(step) { Turn(step); }
        turns := turns - 1;
      }
    }

    method Turn(step: Step)
      requires Valid() && ByOthers(step)
      modifies this`trace, this`faults, this`links, this`watchers, this`channelOpen
      ensures Valid() && old(trace) <= trace && faults == old(faults) + if Adverse(step) then 1 else 0
      ensures !Adverse(step) && Usable(old(View())) ==> Usable(View())
      ensures Usable(View()) ==> Usable(old(View()))
    {
      ghost var before := View();
      ReachableIsSound(before);
      Act(step);
      Took(before, step);
      assert step.Register? || step.Notice? ==> links == before.links;
    }

    method Act(step: Step)
      requires Inv(View()) && ByOthers(step)
      modifies this`links, this`watchers, this`channelOpen
      ensures View() == Apply(old(View()), step)
    {
      match step
      case Lose(link) =>
        if link < |links| && links[link] == Up { links := links[link := Lost]; }
      case CloseChannel => channelOpen := false;
      case Register(w) =>
        if w < |watchers| && watchers[w].Starting? {
          watchers := watchers[w := if links[conn.value] == Up then Watching(conn.value) else Done];
        }
      case Notice(w) =>
        if w < |watchers| && watchers[w].Watching? {
          var link := links[watchers[w].link];
          if link != Up { watchers := watchers[w := if link == Lost then Signalling else Done]; }
        }
    }

    /** A dial that fails: the connection field is overwritten all the same. */
    method NotDialed(ghost message: Option<string>, ghost dials: nat)
      requires Valid() && call == Connecting(message, dials) && dials < CONNECTION_RETRY_LIMIT
      modifies this`trace, this`faults, this`conn, this`call, this`records
      ensures Valid() && old(trace) <= trace
      ensures faults == old(faults) + 1 && conn.None?
      ensures if dials + 1 < CONNECTION_RETRY_LIMIT
              then call == Connecting(message, dials + 1) && records == old(records)
              else call == Idle && GivenUp(old(records), records, message)
    {
      ghost var before, after := View(), DialFailed(View());
      conn := None;
      call, records := after.call, after.records;
      Took(before, DialFails);
    }

    /** A dial that succeeds: a watcher starts, and a channel is opened if it can be. */
    method Established(ok: bool, ghost message: Option<string>, ghost dials: nat)
      requires Valid() && call == Connecting(message, dials) && dials < CONNECTION_RETRY_LIMIT
      modifies this`conn, this`channel, this`channelOpen, this`links, this`watchers
      modifies this`ready, this`call, this`records, this`trace, this`faults
      ensures Valid() && old(trace) <= trace && (ok <==> channel.Some?) && conn.Some?
      ensures faults == old(faults) + (if ok then 0 else 1) && (ok ==> Usable(View()))
      ensures Settled(old(View()), View(), ok, message, dials)
    {
      ghost var before := View();
      SetConnection(ok);
      DialSettles(before, ok);
      Took(before, DialSucceeds(ok));
    }

    method SetConnection(ok: bool)
      requires call.Connecting?
      modifies this`conn, this`channel, this`channelOpen, this`links, this`watchers
      modifies this`ready, this`call, this`records
      ensures View() == Dialed(old(View()), ok)
    {
      ghost var after := Dialed(View(), ok);
      conn := Some(|links|);
      channel := if ok then conn else None;
      if ok { channelOpen := true; }
      links, watchers := links + [Up], watchers + [Starting];
      ready, call, records := after.ready, after.call, after.records;
    }

    /** Dials until a connection stands, at most five times, and opens a channel on it. */
    method Connect(ghost message: Option<string>) returns (ok: bool)
      requires Valid() && call == Connecting(message, 0)
      modifies this`conn, this`channel, this`channelOpen, this`links, this`watchers
      modifies this`ready, this`call, this`records, this`trace, this`faults
      ensures Valid() && old(trace) <= trace && old(faults) <= faults && (faults == old(faults) ==> ok)
      ensures ok ==> channel.Some? && Usable(View())
      ensures !ok && conn.None? ==> GivenUp(old(records), records, message)
      ensures ok && message.Some? ==>
                call.Declaring? && call.text == message.value && ready == old(ready) && records == old(records)
      ensures ok && message.None? ==> call == Idle && ready
      ensures !ok ==> call == Idle && ready == old(ready) && Logged(old(records), records, message, false)
      ensures Leads(old(View()), View())
    {
      ghost var first := trace;
      var counter: nat := 0;
      while counter < CONNECTION_RETRY_LIMIT
        invariant counter <= CONNECTION_RETRY_LIMIT && Valid() && old(trace) <= trace && ready == old(ready)
        invariant old(faults) + counter <= faults
        invariant if counter < CONNECTION_RETRY_LIMIT
                  then call == Connecting(message, counter) && records == old(records)
                  else call == Idle && GivenUp(old(records), records, message)
      {
        Others();
        var dialed := *;
        if dialed {
          ok := *;
          Established(ok, message, counter);
          LeadsAlong(first, trace);
          return;
        }
        NotDialed(message, counter);
        counter := counter + 1;
      }
      LeadsAlong(first, trace);
      return false;
    }

    /** A publisher about to dial for the first time. */
    constructor ()
      ensures Valid() && trace == [] && call == Connecting(None, 0) && !ready && broker == [] && records == []
    {
      conn, channel, channelOpen, links, watchers, broker := None, None, false, [], [], [];
      ready, call, records, taken, trace, faults := false, Connecting(None, 0), [], [], [], 0;
    }

    /** Reconnects if a loss has been signalled, makes sure of the queue and sends. `seen` leads to the state in
        which the signal is looked for; the push panics exactly when there is then no channel and no signal. It delivers
        only if there is a signal or a working channel, and then it does unless the broker or the network gets in
        the way. */
    method Push(text: string) returns (r: Sending, ghost seen: seq<Step>)
      requires Valid() && ready && call == Idle
      modifies this
      ensures Valid() && ready && Leads(old(View()), View())
      ensures broker == old(broker) + if r.Delivered? then [text] else []
      ensures old(trace) <= seen <= trace && Exec(INIT, seen).channel == old(channel)
      ensures r.Panics? <==> old(channel).None? && !AnyPending(Exec(INIT, seen))
      ensures r.Panics? ==> call.Panicked? && records == old(records)
      ensures !r.Panics? ==> call == Idle && Logged(old(records), records, Some(text), r.Delivered?)
      ensures r.Delivered? ==> AnyPending(Exec(INIT, seen)) || Usable(Exec(INIT, seen))
      ensures faults == old(faults) && (AnyPending(Exec(INIT, seen)) || Usable(Exec(INIT, seen))) ==> r.Delivered?
      ensures if AnyPending(Exec(INIT, seen)) then |taken| == |old(taken)| + 1 && old(taken) < taken
              else taken == old(taken)
    {
      ghost var first := trace;
      Others();
      seen := trace;
      var reconnect := Select(text);
      r := Send(text, reconnect);
      LeadsAlong(first, trace);
    }

    /** The push once it is known whether to reconnect. */
    method Send(text: string, reconnect: bool) returns (r: Sending)
      requires Valid() && ready && call == if reconnect then Connecting(Some(text), 0) else Declaring(text, 0)
      modifies this`conn, this`channel, this`channelOpen, this`links, this`watchers
      modifies this`ready, this`call, this`records, this`broker, this`trace, this`faults
      ensures Valid() && old(trace) <= trace && old(faults) <= faults && ready
      ensures r.Delivered? ==> reconnect || Usable(old(View()))
      ensures faults == old(faults) && (reconnect || Usable(old(View()))) ==> r.Delivered?
      ensures broker == old(broker) + if r.Delivered? then [text] else []
      ensures r.Panics? <==> old(channel).None? && !reconnect
      ensures r.Panics? ==> call.Panicked? && records == old(records)
      ensures !r.Panics? ==> call == Idle && Logged(old(records), records, Some(text), r.Delivered?)
    {
      if reconnect {
        var ok := Connect(Some(text));
        if !ok { return Refused; }
      }
      Others();
      r := Declare();
      if !r.Delivered? { return; }
      Others();
      r := Publish(text);
    }

    /** Takes the signal of a watcher if one is on offer. */
    method Select(text: string) returns (reconnect: bool)
      requires Valid() && ready && call == Idle
      modifies this`trace, this`faults, this`watchers, this`taken, this`call
      ensures Valid() && old(trace) <= trace && faults == old(faults)
      ensures call == if reconnect then Connecting(Some(text), 0) else Declaring(text, 0)
      ensures reconnect <==> old(AnyPending(View()))
      ensures if reconnect then |taken| == |old(taken)| + 1 && old(taken) < taken else taken == old(taken)
    {
      reconnect := exists w :: 0 <= w < |watchers| && watchers[w].Signalling?;
      var signaller := 0;
      if reconnect {
        var w :| 0 <= w < |watchers| && watchers[w].Signalling?;
        signaller := w;
      }
      assert reconnect ==> Pending(View(), signaller);
      assert !reconnect ==> !AnyPending(View()) && !Pending(View(), 0);
      ghost var before, after := View(), Pushing(View(), text, signaller);
      if reconnect { watchers := watchers[signaller := Done]; }
      taken, call := after.taken, after.call;
      Took(before, Step.Push(text, signaller));
    }

    method Declare() returns (r: Sending)
      requires Valid() && call.Declaring?
      modifies this`trace, this`faults, this`call, this`records
      ensures Valid() && old(trace) <= trace && old(faults) <= faults
      ensures r.Delivered? <==> faults == old(faults) && Usable(old(View()))
      ensures r.Panics? <==> old(channel).None?
      ensures r.Panics? ==> call.Panicked? && records == old(records)
      ensures r.Refused? ==> call == Idle && Logged(old(records), records, Some(old(call).text), false)
      ensures r.Delivered? ==> call == Publishing(old(call).text, old(call).dials) && records == old(records)
    {
      var fails := *;
      ReachableIsSound(View());
      ghost var before, after := View(), Declared(View(), fails);
      if channel.None? { r := Panics; }
      else if fails || !channelOpen || links[channel.value] != Up { r := Refused; }
      else { r := Delivered; }
      call, records := after.call, after.records;
      Took(before, Step.Declare(fails));
    }

    method Publish(text: string) returns (r: Sending)
      requires Valid() && call.Publishing? && call.text == text
      modifies this`trace, this`faults, this`call, this`records, this`broker
      ensures Valid() && old(trace) <= trace && call == Idle && !r.Panics?
      ensures old(faults) <= faults && (r.Delivered? <==> faults == old(faults) && Usable(old(View())))
      ensures Logged(old(records), records, Some(text), r.Delivered?)
      ensures broker == old(broker) + if r.Delivered? then [text] else []
    {
      var fails := *;
      ReachableIsSound(View());
      ghost var before, after := View(), Published(View(), fails);
      r := if fails || !channelOpen || links[channel.value] != Up then Refused else Delivered;
      if r.Delivered? { broker := broker + [text]; }
      call, records := after.call, after.records;
      Took(before, Step.Publish(fails));
    }

    /** Closes the connection, if there is one, and with it the publisher. */
    method Close()
      requires Valid() && ready && call == Idle
      modifies this`trace, this`faults, this`links
      ensures Valid() && old(trace) <= trace && View() == Apply(old(View()), Step.Close)
      ensures conn.Some? ==> conn.value < |links| && links[conn.value] != Up
    {
      ghost var before := View();
      ReachableIsSound(before);
      if conn.Some? && links[conn.value] == Up { links := links[conn.value := Shut]; }
      Took(before, Step.Close);
    }
  }
}
