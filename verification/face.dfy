/**
  The face as a whole: the state the callbacks share (the hour/minute
  globals, the two hour strings and the two text colours) and one step per
  callback the platform delivers — a minute tick, a battery change, a
  connection change, or a redraw of the canvas layer.
 */
module Face {
  import opened Palette
  import opened Geometry
  import opened Handlers
  import opened TimeText
  import opened Wrappers

  /** The fields of the local and UTC broken-down times the tick handler
      reads, and the platform's 24-hour preference. */
  datatype TimeSample = TimeSample(localHour: int, localMinute: int, utcHour: int, is24h: bool)

  /** The ranges the C library guarantees for `tm_hour` and `tm_min`. */
  predicate SampleValid(t: TimeSample) {
    0 <= t.localHour <= 23 && 0 <= t.localMinute <= 59 && 0 <= t.utcHour <= 23
  }

  /** Everything the callbacks write that the model tracks. */
  datatype Watch = Watch(
    globals: FaceState,
    hourText: string,
    utcText: string,
    hourColor: Color,
    dateColor: Color)

  /** The globals hold values the tick handler can have written: an hour of
      the 24-hour clock (possibly folded) and a minute of the hour. */
  predicate Valid(w: Watch) {
    0 <= w.globals.hours <= 23 && 0 <= w.globals.minutes <= 59
  }

  datatype Event =
    | Tick(sample: TimeSample)
    | BatteryChange(isCharging: bool, percent: int)
    | ConnectionChange(connected: bool)
    | Redraw

  predicate EventValid(e: Event) {
    e.Tick? ==> SampleValid(e.sample)
  }

  /** What one step leaves behind: the new state, whether the watch is asked
      to vibrate, and the commands drawn (empty unless the canvas redrew). */
  datatype Output = Output(watch: Watch, vibrate: bool, commands: seq<DrawCommand>)

  /** The tick handler: render both hour strings and store hour and minute. */
  function UpdateTime(w: Watch, t: TimeSample): (w': Watch)
    requires SampleValid(t)
    ensures Valid(w')
    ensures w'.globals == FaceState(t.localHour, t.localMinute)
    ensures AllDigits(w'.utcText) && AllDigits(w'.hourText)
    ensures ParseDecimal(w'.utcText) == t.utcHour && |w'.utcText| == 2
    ensures w'.hourText == HourText(t.localHour, t.is24h) && w'.utcText == UtcText(t.utcHour)
    ensures t.is24h ==> |w'.hourText| == 2 && ParseDecimal(w'.hourText) == t.localHour
    ensures !t.is24h ==> ParseDecimal(w'.hourText) == Hour12(t.localHour) && w'.hourText[0] != '0'
    ensures w'.hourColor == w.hourColor && w'.dateColor == w.dateColor
  {
    w.(globals := FaceState(t.localHour, t.localMinute),
       hourText := HourText(t.localHour, t.is24h),
       utcText := UtcText(t.utcHour))
  }

  /** One callback. Each kind of event touches only its own part of the
      state; only a disconnected callback vibrates and only a redraw draws. */
  function Step(w: Watch, e: Event): (o: Output)
    requires Valid(w) && EventValid(e)
    ensures Valid(o.watch)
    ensures o.vibrate <==> e == ConnectionChange(false)
    ensures !e.Redraw? ==> o.commands == []
    ensures e.Tick? ==> o.watch == UpdateTime(w, e.sample)
    ensures e.BatteryChange? ==>
      o.watch == w.(hourColor := BatteryColor(e.isCharging, e.percent).value)
    ensures e.ConnectionChange? ==>
      o.watch == w.(dateColor := if e.connected then Main else Error)
    ensures e.Redraw? ==>
      && o.watch == w.(globals := w.globals.(hours := FoldHour(w.globals.hours)))
      && o.commands == FaceCommands(w.globals.minutes)
  {
    match e
    case Tick(t) => Output(UpdateTime(w, t), false, [])
    case BatteryChange(charging, percent) =>
      (match BatteryColor(charging, percent)
       case Some(c) => Output(w.(hourColor := c), false, [])
       case None => Output(w, false, []))
    case ConnectionChange(connected) =>
      var effect := OnConnection(connected);
      Output(w.(dateColor := effect.dateColor), effect.vibrate, [])
    case Redraw =>
      assert AngleDefined(w.globals.minutes);
      var hours := FoldHour(w.globals.hours);
      Output(w.(globals := w.globals.(hours := hours)), false, FaceCommands(w.globals.minutes))
  }

  /** Redrawing twice without a tick in between changes nothing more and
      draws exactly the same commands. */
  lemma RedrawIdempotent(w: Watch)
    requires Valid(w)
    ensures Step(Step(w, Redraw).watch, Redraw) == Step(w, Redraw)
  {
  }

  /** After a tick at minute m, the next redraw lights exactly m % 5 dots
      and sweeps the arc over the completed 5-minute blocks. */
  lemma TickThenRedraw(w: Watch, t: TimeSample)
    requires Valid(w) && SampleValid(t)
    ensures var cs := Step(Step(w, Tick(t)).watch, Redraw).commands;
      && CountColor(cs, Accent) == t.localMinute % 5
      && cs[DOT_COUNT] == Radial(ARC_INSET, ARC_THICKNESS, 0, 30 * (t.localMinute / 5), Main)
  {
    AccentDotCount(t.localMinute);
    ArcCommand(t.localMinute);
  }

  /** Every event of a sequence is one the platform can deliver. */
  predicate AllEventsValid(events: seq<Event>) {
    forall k :: 0 <= k < |events| ==> EventValid(events[k])
  }

  /** Reference definition of a run: the state left by applying `Step` to
      each event in turn. */
  function Run(w: Watch, events: seq<Event>): (w': Watch)
    requires Valid(w) && AllEventsValid(events)
    ensures Valid(w')
  {
    if |events| == 0 then w
    else
      var before := events[..|events| - 1];
      assert AllEventsValid(before);
      Step(Run(w, before), events[|events| - 1]).watch
  }

  /** Running one more event is one more step. */
  lemma RunSnoc(w: Watch, events: seq<Event>, e: Event)
    requires Valid(w) && AllEventsValid(events) && EventValid(e)
    ensures AllEventsValid(events + [e])
    ensures Run(w, events + [e]) == Step(Run(w, events), e).watch
  {
    var all := events + [e];
    assert all[..|all| - 1] == events;
    assert all[|all| - 1] == e;
  }

  /** The date colour is set by the last connection callback: events after it
      that are not connection callbacks leave it alone. */
  lemma {:induction false} LastConnectionSetsDateColor(
    w: Watch, before: seq<Event>, connected: bool, after: seq<Event>)
    requires Valid(w)
    requires AllEventsValid(before) && AllEventsValid(after)
    requires forall k :: 0 <= k < |after| ==> !after[k].ConnectionChange?
    ensures AllEventsValid(before + [ConnectionChange(connected)] + after)
    ensures Run(w, before + [ConnectionChange(connected)] + after).dateColor
         == (if connected then Main else Error)
    decreases |after|
  {
    var events := before + [ConnectionChange(connected)] + after;
    assert AllEventsValid(events) by {
      forall k | 0 <= k < |events| ensures EventValid(events[k]) {
        if k >= |before| + 1 { assert events[k] == after[k - |before| - 1]; }
      }
    }
    if |after| == 0 {
      assert events == before + [ConnectionChange(connected)];
      RunSnoc(w, before, ConnectionChange(connected));
    } else {
      var shorter := after[..|after| - 1];
      var last := after[|after| - 1];
      LastConnectionSetsDateColor(w, before, connected, shorter);
      var prefix := before + [ConnectionChange(connected)] + shorter;
      assert events == prefix + [last];
      RunSnoc(w, prefix, last);
      assert !last.ConnectionChange?;
    }
  }

  /** The `connected` flags of the connection callbacks among `events`, in
      order: the sequence the connection handler sees. */
  function ConnectionStates(events: seq<Event>): (cs: seq<bool>)
    ensures |cs| <= |events|
  {
    if |events| == 0 then []
    else
      var rest := ConnectionStates(events[..|events| - 1]);
      match events[|events| - 1]
      case ConnectionChange(connected) => rest + [connected]
      case _ => rest
  }

  /** The vibrations the connection handler requests over the callbacks it
      sees are the disconnected callbacks of the whole run. */
  lemma {:induction false} ConnectionVibrations(events: seq<Event>)
    ensures Vibrations(ConnectionStates(events)) == multiset(events)[ConnectionChange(false)]
  {
    if |events| > 0 {
      var init := events[..|events| - 1];
      var e := events[|events| - 1];
      ConnectionVibrations(init);
      assert events == init + [e];
      var cs := ConnectionStates(init);
      if e.ConnectionChange? {
        var all := cs + [e.connected];
        assert all[..|all| - 1] == cs;
        assert ConnectionStates(events) == all;
      } else {
        assert ConnectionStates(events) == cs;
      }
    }
  }

  /** Deliver events in order, as the platform's event loop does; counts the
      vibrations requested along the way. */
  method RunEvents(w: Watch, events: seq<Event>) returns (w': Watch, vibrations: nat)
    requires Valid(w)
    requires AllEventsValid(events)
    ensures Valid(w')
    ensures w' == Run(w, events)
    ensures vibrations == multiset(events)[ConnectionChange(false)]
    ensures vibrations == Vibrations(ConnectionStates(events))
  {
    w' := w;
    vibrations := 0;
    var i := 0;
    while i < |events|
      invariant 0 <= i <= |events|
      invariant Valid(w')
      invariant AllEventsValid(events[..i]) && w' == Run(w, events[..i])
      invariant vibrations == multiset(events[..i])[ConnectionChange(false)]
    {
      RunSnoc(w, events[..i], events[i]);
      var o := Step(w', events[i]);
      w' := o.watch;
      if o.vibrate {
        vibrations := vibrations + 1;
      }
      assert events[..i + 1] == events[..i] + [events[i]];
      i := i + 1;
    }
    assert events[..i] == events;
    ConnectionVibrations(events);
  }
}
