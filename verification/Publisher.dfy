/** The AMQP publisher: one caller, one watcher goroutine per connection, and a broker that may drop
    connections at any moment. As in the build protocol, every sequence of steps is a run. */
module Publisher {
  import opened BuildTypes

  const CONNECTION_RETRY_LIMIT: nat := 5

  /** A connection is up until it is lost or closed by the publisher itself. */
  datatype Link = Up | Lost | Shut

  /** A watcher registers with the publisher's current connection, waits for it to be lost, and then
      offers its signal until a push takes it. */
  datatype Watcher = Starting | Watching(link: nat) | Signalling | Done

  /** Where the caller is; `message` is None while the publisher is being created. */
  datatype Call =
    | Idle
    | Connecting(message: Option<string>, dials: nat)
    | Declaring(text: string, dials: nat)
    | Publishing(text: string, dials: nat)
    | Panicked  // the push has used a nil channel

  /** A finished call: the dials it made and whether it reported success. */
  datatype Record = Record(message: Option<string>, dials: nat, ok: bool)

  datatype State = State(
    links: seq<Link>,  // every connection ever dialed
    watchers: seq<Watcher>,  // one per connection
    conn: Option<nat>,  // the publisher's connection field, nil after a failed dial
    channel: Option<nat>,  // the connection its channel belongs to, if it has one
    channelOpen: bool,  // the broker has not closed the channel alone
    ready: bool,  // the constructor has returned a publisher
    call: Call,
    broker: seq<string>,
    records: seq<Record>,
    taken: seq<nat>,  // watchers whose signal a push has taken
    crashed: bool)  // a watcher has dereferenced a nil connection

  const INIT := State([], [], None, None, false, false, Connecting(None, 0), [], [], [], false)

  datatype Step =
    | DialFails
    | DialSucceeds(channelOpens: bool)
    | Push(text: string, watcher: nat)
    | Declare(fails: bool)
    | Publish(fails: bool)
    | Close
    | Lose(link: nat)
    | CloseChannel
    | Register(watcher: nat)
    | Notice(watcher: nat)

  function Finish(s: State, message: Option<string>, dials: nat, ok: bool): State {
    s.(call := Idle, records := s.records + [Record(message, dials, ok)])
  }

  function DialFailed(s: State): State {
    if !s.call.Connecting? then s
    else
      var Connecting(message, dials) := s.call;
      var s' := s.(conn := None);
      if dials + 1 < CONNECTION_RETRY_LIMIT then s'.(call := Connecting(message, dials + 1))
      else Finish(s', message, dials + 1, false)
  }

  function Dialed(s: State, channelOpens: bool): State {
    if !s.call.Connecting? then s
    else
      var Connecting(message, dials) := s.call;
      var link := |s.links|;
      var s' := s.(links := s.links + [Up], watchers := s.watchers + [Starting], conn := Some(link));
      if !channelOpens then Finish(s'.(channel := None), message, dials + 1, false)
      else
        var s'' := s'.(channel := Some(link), channelOpen := true);
        if message.None? then Finish(s''.(ready := true), None, dials + 1, true)
        else s''.(call := Declaring(message.value, dials + 1))
  }

  predicate Pending(s: State, w: nat) {
    w < |s.watchers| && s.watchers[w].Signalling?
  }

  predicate AnyPending(s: State) {
    exists w :: 0 <= w < |s.watchers| && Pending(s, w)
  }

  /** Takes a signal if one is on offer, and reconnects; otherwise goes straight on. */
  function Pushing(s: State, text: string, w: nat): State {
    if s.call != Idle || !s.ready then s
    else if Pending(s, w) then
      s.(watchers := s.watchers[w := Done], taken := s.taken + [w], call := Connecting(Some(text), 0))
    else if AnyPending(s) then s
    else s.(call := Declaring(text, 0))
  }

  predicate Usable(s: State) {
    s.channelOpen && s.channel.Some? && s.channel.value < |s.links| && s.links[s.channel.value] == Up
  }

  function Declared(s: State, fails: bool): State {
    if !s.call.Declaring? then s
    else if s.channel.None? then s.(call := Panicked)
    else if fails || !Usable(s) then Finish(s, Some(s.call.text), s.call.dials, false)
    else s.(call := Publishing(s.call.text, s.call.dials))
  }

  function Published(s: State, fails: bool): State {
    if !s.call.Publishing? then s
    else if s.channel.None? then s.(call := Panicked)
    else if fails || !Usable(s) then Finish(s, Some(s.call.text), s.call.dials, false)
    else Finish(s.(broker := s.broker + [s.call.text]), Some(s.call.text), s.call.dials, true)
  }

  function Closed(s: State): State {
    if s.call != Idle || !s.ready || s.conn.None? || s.conn.value >= |s.links| || s.links[s.conn.value] != Up then s
    else s.(links := s.links[s.conn.value := Shut])
  }

  function LostLink(s: State, link: nat): State {
    if link >= |s.links| || s.links[link] != Up then s else s.(links := s.links[link := Lost])
  }

  /** Registration reads the connection field when the goroutine gets to run. A connection
      that is already down answers at once, without a reason. */
  function Registered(s: State, w: nat): State {
    if w >= |s.watchers| || !s.watchers[w].Starting? then s
    else if s.conn.None? || s.conn.value >= |s.links| then s.(crashed := true)
    else s.(watchers := s.watchers[w := if s.links[s.conn.value] == Up then Watching(s.conn.value) else Done])
  }

  /** A lost connection gives its watcher a reason, a closed one does not. */
  function Noticed(s: State, w: nat): State {
    if w >= |s.watchers| || !s.watchers[w].Watching? || s.watchers[w].link >= |s.links| then s
    else match s.links[s.watchers[w].link]
      case Up => s
      case Lost => s.(watchers := s.watchers[w := Signalling])
      case Shut => s.(watchers := s.watchers[w := Done])
  }

  function Apply(s: State, step: Step): State {
    match step
    case DialFails => DialFailed(s)
    case DialSucceeds(channelOpens) => Dialed(s, channelOpens)
    case Push(text, w) => Pushing(s, text, w)
    case Declare(fails) => Declared(s, fails)
    case Publish(fails) => Published(s, fails)
    case Close => Closed(s)
    case Lose(link) => LostLink(s, link)
    case CloseChannel => s.(channelOpen := false)
    case Register(w) => Registered(s, w)
    case Notice(w) => Noticed(s, w)
  }

  function Exec(s: State, steps: seq<Step>): State {
    if steps == [] then s else Apply(Exec(s, steps[..|steps| - 1]), steps[|steps| - 1])
  }

  lemma {:induction false} ExecAppend(s: State, t: seq<Step>, u: seq<Step>)
    ensures Exec(s, t + u) == Exec(Exec(s, t), u)
  {
    if u == [] {
      assert t + u == t;
    } else {
      ExecAppend(s, t, u[..|u| - 1]);
      assert (t + u)[..|t + u| - 1] == t + u[..|u| - 1];
    }
  }

  /** The messages of the pushes that reported success, in order. */
  function Successes(records: seq<Record>): seq<string> {
    if records == [] then []
    else
      var r := records[|records| - 1];
      Successes(records[..|records| - 1]) + Sent(r)
  }

  lemma SuccessesAppend(records: seq<Record>, r: Record)
    ensures Successes(records + [r]) == Successes(records) + Sent(r)
  {
    assert (records + [r])[..|records|] == records;
  }

  /** Only the newest connection is watched, and only while the caller is not reconnecting; its
      watcher is registered with that very connection. */
  ghost predicate WatchersSound(s: State) {
    && |s.watchers| == |s.links| && !s.crashed
    && (forall w :: 0 <= w < |s.watchers| && s.watchers[w] != Done ==>
          w == |s.links| - 1 && s.conn == Some(w) && !s.call.Connecting?)
    && (forall w :: 0 <= w < |s.watchers| && s.watchers[w].Watching? ==> s.watchers[w].link == w)
    && (forall w :: 0 <= w < |s.watchers| && s.watchers[w].Signalling? ==> s.links[w] == Lost)
    && (forall l :: 0 <= l < |s.links| && s.links[l] == Up ==> s.conn == Some(l) && !s.call.Connecting?)
    && (s.conn.Some? ==> s.conn.value < |s.links|)
    && (s.channel.Some? ==> s.channel.value < |s.links|)
  }

  /** Every signal taken came from a lost connection, and none was taken twice. */
  ghost predicate SignalsSound(s: State)
    requires |s.watchers| == |s.links|
  {
    && (forall i :: 0 <= i < |s.taken| ==>
          s.taken[i] < |s.links| && s.links[s.taken[i]] == Lost && s.watchers[s.taken[i]] == Done)
    && (forall i, j :: 0 <= i < j < |s.taken| ==> s.taken[i] != s.taken[j])
  }

  /** No call dials more than five times. */
  ghost predicate CallsSound(s: State) {
    && (s.call.Connecting? ==> s.call.dials < CONNECTION_RETRY_LIMIT && (s.call.message.Some? <==> s.ready))
    && ((s.call.Declaring? || s.call.Publishing?) ==> s.ready && s.call.dials <= CONNECTION_RETRY_LIMIT)
    && (forall i :: 0 <= i < |s.records| ==> s.records[i].dials <= CONNECTION_RETRY_LIMIT)
    && (!s.ready ==> s.channel.None?)
    && (s.call.Publishing? ==> s.channel.Some?)
    && (s.call.Panicked? ==> s.channel.None?)
    && (s.call.Declaring? && s.channel.None? ==> s.call.dials == 0)
  }

  /** The broker holds what the successful pushes sent. */
  ghost predicate BrokerSound(s: State) {
    s.broker == Successes(s.records)
  }

  ghost predicate Inv(s: State) {
    WatchersSound(s) && SignalsSound(s) && CallsSound(s) && BrokerSound(s)
  }

  predicate CallerStep(step: Step) {
    step.DialFails? || step.DialSucceeds? || step.Push? || step.Declare? || step.Publish?
  }

  lemma PushKeepsWatchers(s: State, text: string, w: nat)
    requires WatchersSound(s)
    ensures WatchersSound(Pushing(s, text, w))
  {
  }

  lemma DialKeepsWatchers(s: State, channelOpens: bool)
    requires WatchersSound(s)
    ensures WatchersSound(Dialed(s, channelOpens))
  {
    var n, s' := |s.links|, Dialed(s, channelOpens);
    if s.call.Connecting? {
      assert forall w :: 0 <= w < n ==> s.watchers[w] == Done && s.links[w] != Up;
      assert s'.watchers == s.watchers + [Starting] && s'.links == s.links + [Up] && s'.conn == Some(n);
    }
  }

  lemma DialFailKeepsWatchers(s: State)
    requires WatchersSound(s)
    ensures WatchersSound(DialFailed(s))
  {
    if s.call.Connecting? {
      assert forall w :: 0 <= w < |s.links| ==> s.watchers[w] == Done && s.links[w] != Up;
    }
  }

  lemma DeclareKeepsWatchers(s: State, fails: bool)
    requires WatchersSound(s)
    ensures WatchersSound(Declared(s, fails))
  {
  }

  lemma PublishKeepsWatchers(s: State, fails: bool)
    requires WatchersSound(s)
    ensures WatchersSound(Published(s, fails))
  {
  }

  lemma CallerStepKeepsWatchers(s: State, step: Step)
    requires WatchersSound(s) && CallerStep(step)
    ensures WatchersSound(Apply(s, step))
  {
    match step
    case Push(text, w) => PushKeepsWatchers(s, text, w);
    case DialSucceeds(channelOpens) => DialKeepsWatchers(s, channelOpens);
    case DialFails => DialFailKeepsWatchers(s);
    case Declare(fails) => DeclareKeepsWatchers(s, fails);
    case Publish(fails) => PublishKeepsWatchers(s, fails);
  }

  lemma LinkStepKeepsWatchers(s: State, step: Step)
    requires WatchersSound(s) && !CallerStep(step)
    ensures WatchersSound(Apply(s, step))
  {
  }

  /** Connections only go down, and a watcher that is done stays done. */
  ghost predicate Monotone(s: State, s': State)
    requires |s.watchers| == |s.links|
  {
    && |s.links| <= |s'.links| == |s'.watchers|
    && (forall w :: 0 <= w < |s.links| ==> s'.links[w] == s.links[w] || s.links[w] == Up)
    && (forall w :: 0 <= w < |s.links| && s.watchers[w] == Done ==> s'.watchers[w] == Done)
  }

  lemma CallerIsMonotone(s: State, step: Step)
    requires |s.watchers| == |s.links| && CallerStep(step)
    ensures Monotone(s, Apply(s, step))
  {
  }

  lemma StepIsMonotone(s: State, step: Step)
    requires |s.watchers| == |s.links|
    ensures Monotone(s, Apply(s, step))
  {
    if CallerStep(step) { CallerIsMonotone(s, step); }
  }

  /** Only a push takes a signal, and its watcher is done then. */
  lemma StepTakes(s: State, step: Step)
    ensures var s' := Apply(s, step);
            s'.taken == s.taken || (step.Push? && Pending(s, step.watcher) && s'.taken == s.taken + [step.watcher]
                                    && s'.watchers == s.watchers[step.watcher := Done] && s'.links == s.links)
  {
  }

  lemma StepKeepsSignals(s: State, step: Step)
    requires WatchersSound(s) && SignalsSound(s)
    ensures |Apply(s, step).watchers| == |Apply(s, step).links| && SignalsSound(Apply(s, step))
  {
    StepIsMonotone(s, step);
    StepTakes(s, step);
  }

  lemma DialKeepsCalls(s: State, channelOpens: bool)
    requires CallsSound(s)
    ensures CallsSound(Dialed(s, channelOpens)) && CallsSound(DialFailed(s))
  {
  }

  lemma StepKeepsCalls(s: State, step: Step)
    requires CallsSound(s)
    ensures CallsSound(Apply(s, step))
  {
    match step
    case DialFails => DialKeepsCalls(s, true);
    case DialSucceeds(channelOpens) => DialKeepsCalls(s, channelOpens);
    case _ =>
  }

  function Sent(r: Record): seq<string> {
    if r.ok && r.message.Some? then [r.message.value] else []
  }

  /** At most one call ends, and the broker receives its message if it is a push that succeeded. */
  ghost predicate Records(s: State, s': State) {
    && s.records <= s'.records && |s'.records| <= |s.records| + 1
    && s'.broker == s.broker + if s'.records == s.records then [] else Sent(s'.records[|s.records|])
  }

  lemma DialRecords(s: State, channelOpens: bool)
    ensures Records(s, Dialed(s, channelOpens))
  {
  }

  lemma DialFailRecords(s: State)
    ensures Records(s, DialFailed(s))
  {
  }

  /** The broker receives a message in the very step that ends a push with success. */
  lemma StepRecords(s: State, step: Step)
    ensures Records(s, Apply(s, step))
  {
    match step
    case DialFails => DialFailRecords(s);
    case DialSucceeds(channelOpens) => DialRecords(s, channelOpens);
    case _ =>
  }

  lemma StepKeepsBroker(s: State, step: Step)
    requires BrokerSound(s)
    ensures BrokerSound(Apply(s, step))
  {
    StepRecords(s, step);
    var s' := Apply(s, step);
    if s'.records != s.records {
      SuccessesAppend(s.records, s'.records[|s.records|]);
      assert s'.records == s.records + [s'.records[|s.records|]];
    }
  }

  lemma StepKeeps(s: State, step: Step)
    requires Inv(s)
    ensures Inv(Apply(s, step))
  {
    if CallerStep(step) { CallerStepKeepsWatchers(s, step); } else { LinkStepKeepsWatchers(s, step); }
    StepKeepsSignals(s, step);
    StepKeepsCalls(s, step);
    StepKeepsBroker(s, step);
  }

  lemma {:induction false} Safe(steps: seq<Step>)
    ensures Inv(Exec(INIT, steps))
  {
    if steps != [] {
      Safe(steps[..|steps| - 1]);
      StepKeeps(Exec(INIT, steps[..|steps| - 1]), steps[|steps| - 1]);
    }
  }

  /** The dials of a run: those made by calls that were connecting. */
  function DialsIn(steps: seq<Step>): nat {
    if steps == [] then 0
    else
      var n := |steps| - 1;
      DialsIn(steps[..n]) +
      if (steps[n].DialFails? || steps[n].DialSucceeds?) && Exec(INIT, steps[..n]).call.Connecting? then 1 else 0
  }

  function DialsOf(records: seq<Record>): nat {
    if records == [] then 0 else DialsOf(records[..|records| - 1]) + records[|records| - 1].dials
  }

  function DialsUnderWay(call: Call): nat {
    match call
    case Connecting(_, dials) => dials
    case Declaring(_, dials) => dials
    case Publishing(_, dials) => dials
    case _ => 0
  }

  /** A step adds its own dial to those of the call under way; a call that ends takes them to its record. */
  ghost predicate CountsDials(s: State, s': State, dials: nat) {
    && s.records <= s'.records && |s'.records| <= |s.records| + 1
    && DialsUnderWay(s'.call) + (if s'.records == s.records then 0 else s'.records[|s.records|].dials) ==
       DialsUnderWay(s.call) + dials
  }

  lemma DialCounts(s: State, channelOpens: bool)
    requires s.call.Connecting?
    ensures CountsDials(s, Dialed(s, channelOpens), 1) && CountsDials(s, DialFailed(s), 1)
  {
  }

  lemma StepDials(s: State, step: Step)
    requires CallsSound(s)
    ensures CountsDials(s, Apply(s, step),
                        if (step.DialFails? || step.DialSucceeds?) && s.call.Connecting? then 1 else 0)
  {
    match step
    case DialFails => if s.call.Connecting? { DialCounts(s, true); }
    case DialSucceeds(channelOpens) => if s.call.Connecting? { DialCounts(s, channelOpens); }
    case _ =>
  }

  /** Every dial of every run is on the record of exactly one call, or of the one under way. */
  lemma {:induction false} DialsAreCounted(steps: seq<Step>)
    ensures var s := Exec(INIT, steps); DialsOf(s.records) + DialsUnderWay(s.call) == DialsIn(steps)
  {
    if steps != [] {
      var n := |steps| - 1;
      var before := Exec(INIT, steps[..n]);
      DialsAreCounted(steps[..n]);
      Safe(steps[..n]);
      StepDials(before, steps[n]);
      var after := Exec(INIT, steps);
      if after.records != before.records {
        assert after.records[..|before.records|] == before.records;
      }
    }
  }

  /** Over every run: watchers never touch a nil or a foreign connection, no call dials more than five
      times, the broker holds the successful pushes in order, and each lost connection gives at
      most one push cause to reconnect. */
  lemma PublisherIsSound(steps: seq<Step>)
    ensures var s := Exec(INIT, steps);
            && !s.crashed && (forall w :: 0 <= w < |s.watchers| && s.watchers[w].Starting? ==> s.conn == Some(w))
            && (forall w :: 0 <= w < |s.watchers| && s.watchers[w].Watching? ==> s.watchers[w].link == w)
            && (forall r :: r in s.records ==> r.dials <= 5)
            && s.broker == Successes(s.records)
            && (forall i :: 0 <= i < |s.taken| ==> s.taken[i] < |s.links| && s.links[s.taken[i]] == Lost)
            && (forall i, j :: 0 <= i < j < |s.taken| ==> s.taken[i] != s.taken[j])
  {
    Safe(steps);
  }

  /** The watcher may still signal: it has an offer out, it watches a connection that was not
      closed, or it is about to register with one that is up. */
  predicate Hopeful(s: State, w: nat) {
    w < |s.watchers| && w < |s.links| &&
    (|| s.watchers[w].Signalling?
     || (s.watchers[w].Watching? && s.links[w] != Shut)
     || (s.watchers[w].Starting? && s.links[w] == Up))
  }

  /** A push has run into the nil channel or is about to. */
  predicate Doomed(s: State) {
    s.call.Panicked? || (s.call.Declaring? && s.channel.None?)
  }

  /** The publisher is connecting, has a working channel, or will learn that it has to reconnect. */
  ghost predicate Alive(s: State) {
    s.call.Connecting? || (s.ready && !Doomed(s) && (Usable(s) || exists w :: Hopeful(s, w)))
  }

  /** Nothing is on offer, so a push goes straight on with what it has. */
  lemma DeadPush(s: State, text: string, w: nat)
    requires Inv(s) && !Alive(s)
    ensures var s' := Pushing(s, text, w); !Alive(s') && s'.broker == s.broker && s'.links == s.links
  {
    var s' := Pushing(s, text, w);
    if s.ready && s.call == Idle {
      assert !Hopeful(s, w);
      forall w' ensures !Hopeful(s', w') { assert !Hopeful(s, w'); }
    }
  }

  lemma DeadCallStep(s: State, step: Step)
    requires Inv(s) && !Alive(s) && (step.DialFails? || step.DialSucceeds? || step.Declare? || step.Publish?)
    ensures !Alive(Apply(s, step)) && Apply(s, step).broker == s.broker && Apply(s, step).links == s.links
  {
    var s' := Apply(s, step);
    assert s'.watchers == s.watchers && s'.links == s.links;
    if s.ready && !Doomed(s) {
      forall w ensures !Hopeful(s', w) { assert !Hopeful(s, w); }
    }
  }

  lemma DeadLinkStep(s: State, step: Step)
    requires Inv(s) && !Alive(s) && (step.Close? || step.Lose? || step.CloseChannel?)
    ensures !Alive(Apply(s, step)) && Apply(s, step).broker == s.broker && |Apply(s, step).links| == |s.links|
  {
    var s' := Apply(s, step);
    if s.ready && !Doomed(s) {
      forall w ensures !Hopeful(s', w) { assert !Hopeful(s, w); }
    }
  }

  lemma DeadRegister(s: State, w: nat)
    requires Inv(s) && !Alive(s)
    ensures !Alive(Registered(s, w)) && Registered(s, w).broker == s.broker && Registered(s, w).links == s.links
  {
    var s' := Registered(s, w);
    if s.ready && !Doomed(s) {
      forall w' ensures !Hopeful(s', w') { assert !Hopeful(s, w'); }
    }
  }

  lemma DeadNotice(s: State, w: nat)
    requires Inv(s) && !Alive(s)
    ensures !Alive(Noticed(s, w)) && Noticed(s, w).broker == s.broker && Noticed(s, w).links == s.links
  {
    var s' := Noticed(s, w);
    if s.ready && !Doomed(s) {
      forall w' ensures !Hopeful(s', w') { assert !Hopeful(s, w'); }
    }
  }

  lemma DeadStepStays(s: State, step: Step)
    requires Inv(s) && !Alive(s)
    ensures !Alive(Apply(s, step)) && Apply(s, step).broker == s.broker && |Apply(s, step).links| == |s.links|
  {
    if step.Push? {
      DeadPush(s, step.text, step.watcher);
    } else if CallerStep(step) {
      DeadCallStep(s, step);
    } else if step.Register? {
      DeadRegister(s, step.watcher);
    } else if step.Notice? {
      DeadNotice(s, step.watcher);
    } else {
      DeadLinkStep(s, step);
    }
  }

  lemma {:induction false} DeadForever(s: State, steps: seq<Step>)
    requires Inv(s) && !Alive(s)
    ensures var s' := Exec(s, steps); Inv(s') && !Alive(s') && s'.broker == s.broker && |s'.links| == |s.links|
  {
    if steps != [] {
      DeadForever(s, steps[..|steps| - 1]);
      var before := Exec(s, steps[..|steps| - 1]);
      DeadStepStays(before, steps[|steps| - 1]);
      StepKeeps(before, steps[|steps| - 1]);
    }
  }

  lemma Then(s: State, step: Step, steps: seq<Step>)
    ensures Exec(s, [step]) == Apply(s, step)
    ensures Exec(s, [step] + steps) == Exec(Apply(s, step), steps)
  {
    assert [step][..0] == [];
    ExecAppend(s, [step], steps);
  }

  ghost predicate Delivers(s: State, steps: seq<Step>) {
    |Exec(s, steps).broker| == |s.broker| + 1
  }

  lemma DeliverDeclaring(s: State) returns (steps: seq<Step>)
    requires s.call.Declaring? && Usable(s)
    ensures Delivers(s, steps)
  {
    Then(s, Declare(false), [Publish(false)]);
    Then(Apply(s, Declare(false)), Publish(false), []);
    steps := [Declare(false)] + [Publish(false)];
  }

  lemma DeliverIdle(s: State) returns (steps: seq<Step>)
    requires s.call == Idle && s.ready && Usable(s) && !AnyPending(s)
    ensures Delivers(s, steps)
  {
    var rest := DeliverDeclaring(Apply(s, Push("", 0)));
    Then(s, Push("", 0), rest);
    steps := [Push("", 0)] + rest;
  }

  lemma DeliverConnecting(s: State) returns (steps: seq<Step>)
    requires Inv(s) && s.call.Connecting?
    ensures Delivers(s, steps)
  {
    var step := DialSucceeds(true);
    var s' := Apply(s, step);
    var rest;
    if s.call.message.Some? {
      rest := DeliverDeclaring(s');
    } else {
      assert !AnyPending(s);
      rest := DeliverIdle(s');
    }
    Then(s, step, rest);
    steps := [step] + rest;
  }

  lemma DeliverPending(s: State, w: nat) returns (steps: seq<Step>)
    requires Inv(s) && s.call == Idle && s.ready && Pending(s, w)
    ensures Delivers(s, steps)
  {
    var step := Push("", w);
    StepKeeps(s, step);
    var rest := DeliverConnecting(Apply(s, step));
    Then(s, step, rest);
    steps := [step] + rest;
  }

  /** A watcher with hope can be brought to signal. */
  lemma {:induction false} DeliverHopeful(s: State, w: nat) returns (steps: seq<Step>)
    requires Inv(s) && s.call == Idle && s.ready && Hopeful(s, w)
    ensures Delivers(s, steps)
    decreases if s.watchers[w].Signalling? then 0 else if s.watchers[w].Watching? then 1 else 2,
              if s.links[w] == Up then 1 else 0
  {
    if s.watchers[w].Signalling? {
      steps := DeliverPending(s, w);
    } else {
      var step := if s.watchers[w].Starting? then Register(w) else if s.links[w] == Up then Lose(w) else Notice(w);
      StepKeeps(s, step);
      var rest := DeliverHopeful(Apply(s, step), w);
      Then(s, step, rest);
      steps := [step] + rest;
    }
  }

  lemma Deliver(s: State) returns (steps: seq<Step>)
    requires Inv(s) && Alive(s)
    ensures Delivers(s, steps)
  {
    if s.call.Connecting? {
      steps := DeliverConnecting(s);
    } else if Usable(s) && s.call.Publishing? {
      Then(s, Publish(false), []);
      steps := [Publish(false)];
    } else if Usable(s) && s.call.Declaring? {
      steps := DeliverDeclaring(s);
    } else if s.call == Idle && (exists w :: Hopeful(s, w)) {
      var w :| Hopeful(s, w);
      steps := DeliverHopeful(s, w);
    } else if s.call == Idle {
      forall w: nat ensures !Pending(s, w) { assert !Hopeful(s, w); }
      steps := DeliverIdle(s);
    } else {
      var w :| Hopeful(s, w);
      var step := if s.call.Declaring? then Declare(true) else Publish(true);
      StepKeeps(s, step);
      var rest := DeliverHopeful(Apply(s, step), w);
      Then(s, step, rest);
      steps := [step] + rest;
    }
  }

  /** A publisher can get one more message to the broker in some continuation if and only if it is
      alive. A reconnect that failed five times, a connection lost before its watcher registered
      and a closed publisher are all final: no later push dials or delivers. */
  lemma DeliversIfAlive(past: seq<Step>)
    ensures var s := Exec(INIT, past);
            (exists steps :: |Exec(s, steps).broker| > |s.broker|) <==> Alive(s)
    ensures var s := Exec(INIT, past);
            !Alive(s) ==> forall steps :: |Exec(s, steps).links| == |s.links| && !Exec(s, steps).call.Connecting?
  {
    Safe(past);
    var s := Exec(INIT, past);
    if Alive(s) {
      var steps := Deliver(s);
      assert |Exec(s, steps).broker| > |s.broker|;
    } else {
      forall steps
        ensures |Exec(s, steps).broker| == |s.broker|
        ensures |Exec(s, steps).links| == |s.links| && !Exec(s, steps).call.Connecting?
      {
        DeadForever(s, steps);
      }
    }
  }

  /** The failed reconnect: the loss is noticed once, and five failed dials later the publisher is dead. */
  lemma {:induction false} FailedReconnectIsFinal(s: State)
    requires Inv(s) && s.call.Connecting? && s.ready
    ensures exists steps :: !Alive(Exec(s, steps))
    decreases CONNECTION_RETRY_LIMIT - s.call.dials
  {
    var s' := Apply(s, DialFails);
    StepKeeps(s, DialFails);
    if s'.call.Connecting? {
      FailedReconnectIsFinal(s');
      var rest :| !Alive(Exec(s', rest));
      Then(s, DialFails, rest);
    } else {
      Then(s, DialFails, []);
    }
  }

  /** The watcher has a loss to report. */
  predicate LossUnderWay(s: State, w: nat) {
    w < |s.watchers| && w < |s.links| && (s.watchers[w].Signalling? || (s.watchers[w].Watching? && s.links[w] == Lost))
  }

  lemma HopefulAfterClose(s: State, w: nat)
    requires Inv(s) && s.call == Idle && s.ready
    ensures Hopeful(Closed(s), w) <==> LossUnderWay(s, w)
  {
  }

  lemma ClosedIsUnusable(s: State)
    requires Inv(s) && s.call == Idle && s.ready
    ensures !Usable(Closed(s)) && Closed(s).call == Idle && Closed(s).ready
  {
  }

  /** A close ends the publisher if and only if no loss is under way to it: it raises no reconnect, but it does not
      take back a loss that came before it. */
  lemma CloseIsFinal(past: seq<Step>)
    requires Exec(INIT, past).call == Idle && Exec(INIT, past).ready
    ensures var s := Exec(INIT, past);
            !Alive(Apply(s, Close)) <==> forall w :: !LossUnderWay(s, w)
  {
    Safe(past);
    var s := Exec(INIT, past);
    ClosedIsUnusable(s);
    forall w: nat ensures Hopeful(Closed(s), w) <==> LossUnderWay(s, w) { HopefulAfterClose(s, w); }
  }

  /** The broker has closed the channel alone: the connection is up or was closed, and no loss is on offer. */
  ghost predicate Muted(s: State) {
    && s.ready && !s.call.Connecting? && !s.channelOpen && s.channel.Some? && s.conn == s.channel
    && s.channel.value < |s.links| && s.links[s.channel.value] != Lost && !AnyPending(s)
  }

  /** It can do that to every working channel, at any moment of any run ... */
  lemma ClosingMutes(past: seq<Step>)
    requires Usable(Exec(INIT, past))
    ensures Muted(Exec(INIT, past + [CloseChannel]))
  {
    Safe(past);
    assert (past + [CloseChannel])[..|past|] == past;
  }

  /** ... for instance right after the first connection. */
  lemma MutedIsReachable()
    ensures exists steps :: Muted(Exec(INIT, steps))
  {
    Then(INIT, DialSucceeds(true), []);
    ClosingMutes([DialSucceeds(true)]);
  }

  lemma MutedStays(s: State, step: Step)
    requires Inv(s) && Muted(s) && !step.Lose?
    ensures Muted(Apply(s, step)) && Apply(s, step).broker == s.broker
  {
  }

  /** Then every push fails, and no call reconnects, until the connection is lost. */
  lemma {:induction false} ChannelClosureMutes(s: State, steps: seq<Step>)
    requires Inv(s) && Muted(s) && forall step :: step in steps ==> !step.Lose?
    ensures var s' := Exec(s, steps); Inv(s') && Muted(s') && s'.broker == s.broker
  {
    if steps != [] {
      var before := Exec(s, steps[..|steps| - 1]);
      ChannelClosureMutes(s, steps[..|steps| - 1]);
      MutedStays(before, steps[|steps| - 1]);
      StepKeeps(before, steps[|steps| - 1]);
    }
  }
}
