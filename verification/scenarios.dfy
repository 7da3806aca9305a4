/**
 * Whole-program consequences: what startup sends and which workers it starts for
 * given script globals, and what the presence client then sees.
 */
module Scenarios {
  import opened Wrappers
  import opened Script
  import opened Activity
  import opened Lua
  import opened Disco

  /** How many of `xs` are for field `tag`, where `key` gives the field of each. */
  function CountFor<T>(xs: seq<T>, key: T -> Tag, tag: Tag): nat
  {
    if xs == [] then 0
    else CountFor(xs[..|xs| - 1], key, tag) + (if key(xs[|xs| - 1]) == tag then 1 else 0)
  }

  /** The strategy field `tag` resolves to in `globals`. */
  function StrategyOf(globals: map<string, Value>, tag: Tag): Result<Variable, Error>
  {
    Classify(tag, Global(globals, Fields[FieldIndex(tag)].0))
  }

  /** True when field `tag` resolves to a Static strategy in `globals`. */
  predicate IsStatic(globals: map<string, Value>, tag: Tag)
  {
    StrategyOf(globals, tag).Ok? && StrategyOf(globals, tag).value.Static?
  }

  /** True when field `tag` resolves to a Poll or Listen strategy in `globals`. */
  predicate Spawns(globals: map<string, Value>, tag: Tag)
  {
    StrategyOf(globals, tag).Ok? && !StrategyOf(globals, tag).value.Static?
  }

  /** Appending what one field gives counts it for its own tag only. */
  lemma CountStep<T>(xs: seq<T>, ys: seq<T>, key: T -> Tag, t: Tag, tag: Tag)
    requires |ys| <= 1 && forall y :: y in ys ==> key(y) == t
    ensures CountFor(xs + ys, key, tag) == CountFor(xs, key, tag) + (if t == tag && ys != [] then 1 else 0)
  {
    if ys == [] {
      assert xs + ys == xs;
    } else {
      assert ys == [ys[0]] && ys[0] in ys;
      assert (xs + ys)[..|xs|] == xs;
    }
  }

  /** Among the first `k` fields of a list that holds each field at the position
      `index` gives it, where each field gives at most one item of its own: a field
      that gives one is counted once, and a field that gives none is not counted. */
  lemma {:induction false} CountOncePerField<T>(
    fields: seq<(string, Tag)>, index: Tag -> nat, each: ((string, Tag)) -> seq<T>, key: T -> Tag, tag: Tag, k: nat)
    requires k <= |fields|
    requires forall i :: 0 <= i < |fields| ==> index(fields[i].1) == i
    requires index(tag) < |fields| ==> fields[index(tag)].1 == tag
    requires forall f :: |each(f)| <= 1 && forall y :: y in each(f) ==> key(y) == f.1
    ensures CountFor(Collect(fields[..k], each), key, tag)
         == if index(tag) < k && each(fields[index(tag)]) != [] then 1 else 0
  {
    if k > 0 {
      var f := fields[k - 1];
      CountOncePerField(fields, index, each, key, tag, k - 1);
      CollectPrefix(fields, each, k - 1);
      assert |each(f)| <= 1 && forall y :: y in each(f) ==> key(y) == f.1;
      CountStep(Collect(fields[..k - 1], each), each(f), key, f.1, tag);
      assert index(f.1) == k - 1;
      if f.1 == tag {
        assert index(tag) == k - 1;
      } else {
        assert index(tag) != k - 1;
      }
    }
  }

  /** The watch list holds each field at the index FieldIndex gives it. */
  lemma FieldsIndexed()
    ensures forall i :: 0 <= i < |Fields| ==> FieldIndex(Fields[i].1) == i
  {
    forall i | 0 <= i < |Fields| ensures FieldIndex(Fields[i].1) == i {
      FieldIndexInverse(i);
    }
  }

  /** Over the watch list, where each field gives at most one item of its own, a
      field is counted once when it gives an item and not at all otherwise. */
  lemma CountWatchedOnce<T>(each: ((string, Tag)) -> seq<T>, key: T -> Tag, tag: Tag)
    requires forall f :: |each(f)| <= 1 && forall y :: y in each(f) ==> key(y) == f.1
    ensures CountFor(Collect(Fields, each), key, tag) == if each(Fields[FieldIndex(tag)]) != [] then 1 else 0
  {
    FieldsIndexed();
    CountOncePerField(Fields, FieldIndex, each, key, tag, |Fields|);
    assert Fields[..|Fields|] == Fields;
  }

  /** A Static field sends exactly one update at startup; any other field sends none. */
  lemma StaticSentOnce(globals: map<string, Value>, tag: Tag)
    ensures CountFor(StaticUpdates(globals, Fields), (d: Data) => d.FieldTag(), tag) == if IsStatic(globals, tag) then 1 else 0
  {
    CountWatchedOnce(f => StaticOf(globals, f), (d: Data) => d.FieldTag(), tag);
    StaticOfValue(globals, Fields[FieldIndex(tag)]);
  }

  /** A Poll or Listen field gets exactly one worker at startup; any other field none. */
  lemma WorkerStartedOnce(globals: map<string, Value>, tag: Tag)
    ensures CountFor(Workers(globals, Fields), (w: Worker) => w.tag, tag) == if Spawns(globals, tag) then 1 else 0
  {
    CountWatchedOnce(f => WorkerOf(globals, f), (w: Worker) => w.tag, tag);
  }

  /** An item of a collection comes from one of the fields. */
  lemma {:induction false} CollectMember<T>(fields: seq<(string, Tag)>, each: ((string, Tag)) -> seq<T>, y: T)
    requires y in Collect(fields, each)
    ensures exists i :: 0 <= i < |fields| && y in each(fields[i])
  {
    var init := fields[..|fields| - 1];
    if y in Collect(init, each) {
      CollectMember(init, each, y);
      var i :| 0 <= i < |init| && y in each(init[i]);
      assert fields[i] == init[i];
    } else {
      assert y in each(fields[|fields| - 1]);
    }
  }

  /** Every worker started belongs to a field that resolved to Poll or Listen, and
      sends what that strategy sends. */
  lemma WorkersSendAsSpecified(globals: map<string, Value>, w: Worker)
    requires w in Workers(globals, Fields)
    ensures Spawns(globals, w.tag)
    ensures w.emitted == Sent(w.tag, StrategyOf(globals, w.tag).value, Global(globals, Fields[FieldIndex(w.tag)].0))
  {
    CollectMember(Fields, f => WorkerOf(globals, f), w);
    var i :| 0 <= i < |Fields| && w in WorkerOf(globals, Fields[i]);
    FieldIndexInverse(i);
  }

  /** Every update sent at startup is the classified Static value of its own field. */
  lemma StaticsAsSpecified(globals: map<string, Value>, d: Data)
    requires d in StaticUpdates(globals, Fields)
    ensures StrategyOf(globals, d.FieldTag()) == Ok(Static(d))
  {
    CollectMember(Fields, f => StaticOf(globals, f), d);
    var i :| 0 <= i < |Fields| && d in StaticOf(globals, Fields[i]);
    StaticOfValue(globals, Fields[i]);
    FieldIndexInverse(i);
  }

  /** The globals of a script setting `State = "Coding"`, `Active = true` and
      `Timestamp = { start = 1700000000 }`. */
  function CodingGlobals(): map<string, Value>
  {
    map["State" := Str("Coding"), "Active" := Bool(true),
        "Timestamp" := Table([], map["start" := Int(1700000000)])]
  }

  /** The fields of that script that are set resolve to Static with their values. */
  lemma CodingFieldsSet()
    ensures Classify(Tag.State, Global(CodingGlobals(), "State")) == Ok(Static(Data.State("Coding")))
    ensures Classify(Tag.Timestamp, Global(CodingGlobals(), "Timestamp"))
         == Ok(Static(Data.Timestamp(Timestamp.Timestamp(Some(1700000000), None))))
    ensures Classify(Tag.Active, Global(CodingGlobals(), "Active")) == Ok(Static(Data.Active(true)))
  {
    var t := CodingGlobals()["Timestamp"];
    assert Field(t, "start") == Int(1700000000) && Field(t, "_end") == Nil && Slot(t, 1) == Nil;
    assert DecodeTimestamp(t) == Ok(Timestamp.Timestamp(Some(1700000000), None));
  }

  /** The fields of that script that are not set read nil and fail to resolve. */
  lemma CodingFieldsUnset()
    ensures Classify(Tag.Details, Global(CodingGlobals(), "Details")).Err?
    ensures Classify(Tag.FirstButton, Global(CodingGlobals(), "Button1")).Err?
    ensures Classify(Tag.SecondButton, Global(CodingGlobals(), "Button2")).Err?
    ensures Classify(Tag.LargeImage, Global(CodingGlobals(), "LargeImage")).Err?
    ensures Classify(Tag.SmallImage, Global(CodingGlobals(), "SmallImage")).Err?
  {
  }

  /** Collecting over the first four fields, spelled out. */
  lemma CollectFour<T>(fields: seq<(string, Tag)>, each: ((string, Tag)) -> seq<T>)
    requires |fields| >= 4
    ensures Collect(fields[..4], each) == each(fields[0]) + each(fields[1]) + each(fields[2]) + each(fields[3])
  {
    assert fields[..0] == [];
    CollectPrefix(fields, each, 0);
    CollectPrefix(fields, each, 1);
    CollectPrefix(fields, each, 2);
    CollectPrefix(fields, each, 3);
  }

  /** Collecting over eight fields, spelled out. */
  lemma CollectEight<T>(fields: seq<(string, Tag)>, each: ((string, Tag)) -> seq<T>)
    requires |fields| == 8
    ensures Collect(fields, each)
         == (each(fields[0]) + each(fields[1]) + each(fields[2]) + each(fields[3]))
          + each(fields[4]) + each(fields[5]) + each(fields[6]) + each(fields[7])
  {
    CollectFour(fields, each);
    CollectPrefix(fields, each, 4);
    CollectPrefix(fields, each, 5);
    CollectPrefix(fields, each, 6);
    CollectPrefix(fields, each, 7);
    assert fields[..8] == fields;
  }

  /** What startup sends, field by field in declaration order. */
  lemma StaticUpdatesInOrder(globals: map<string, Value>)
    ensures StaticUpdates(globals, Fields)
         == (StaticOf(globals, Fields[0]) + StaticOf(globals, Fields[1]) + StaticOf(globals, Fields[2]) + StaticOf(globals, Fields[3]))
          + StaticOf(globals, Fields[4]) + StaticOf(globals, Fields[5]) + StaticOf(globals, Fields[6]) + StaticOf(globals, Fields[7])
  {
    CollectEight(Fields, f => StaticOf(globals, f));
  }

  /** The classifications of a script that sets only State, Timestamp and Active,
      each to a Static value. */
  predicate OnlyThreeStatic(g: map<string, Value>, s: Data, t: Data, a: Data)
  {
    && Classify(Tag.State, Global(g, "State")) == Ok(Static(s))
    && Classify(Tag.Timestamp, Global(g, "Timestamp")) == Ok(Static(t))
    && Classify(Tag.Active, Global(g, "Active")) == Ok(Static(a))
    && Classify(Tag.Details, Global(g, "Details")).Err?
    && Classify(Tag.FirstButton, Global(g, "Button1")).Err?
    && Classify(Tag.SecondButton, Global(g, "Button2")).Err?
    && Classify(Tag.LargeImage, Global(g, "LargeImage")).Err?
    && Classify(Tag.SmallImage, Global(g, "SmallImage")).Err?
  }

  /** Such a script sends its three values at startup, in watch-list order. */
  lemma OnlyThreeStaticStartup(g: map<string, Value>, s: Data, t: Data, a: Data)
    requires OnlyThreeStatic(g, s, t, a)
    ensures StaticUpdates(g, Fields) == [s, t, a]
  {
    StaticUpdatesInOrder(g);
    StaticOfValue(g, Fields[0]);
    StaticOfValue(g, Fields[2]);
    StaticOfValue(g, Fields[7]);
  }

  /** Such a script reports the other five fields as missing, in watch-list order. */
  lemma OnlyThreeStaticMissing(g: map<string, Value>, s: Data, t: Data, a: Data)
    requires OnlyThreeStatic(g, s, t, a)
    ensures MissingNames(g, Fields) == ["Details", "Button1", "Button2", "LargeImage", "SmallImage"]
  {
    CollectEight(Fields, f => MissingOf(g, f));
  }

  /** Such a script starts no worker. */
  lemma OnlyThreeStaticNoWorker(g: map<string, Value>, s: Data, t: Data, a: Data)
    requires OnlyThreeStatic(g, s, t, a)
    ensures Workers(g, Fields) == []
  {
    CollectEight(Fields, f => WorkerOf(g, f));
  }

  /** The Static values the coding script sets. */
  const CodingState := Data.State("Coding")
  const CodingStart := Data.Timestamp(Timestamp.Timestamp(Some(1700000000), None))
  const CodingActive := Data.Active(true)

  /** The coding script sets only State, Timestamp and Active, each to a Static value. */
  lemma CodingOnlyThree()
    ensures OnlyThreeStatic(CodingGlobals(), CodingState, CodingStart, CodingActive)
  {
    CodingFieldsSet();
    CodingFieldsUnset();
  }

  /** That script sends State, then Timestamp, then Active at startup. */
  lemma CodingStartup()
    ensures StaticUpdates(CodingGlobals(), Fields)
         == [Data.State("Coding"), Data.Timestamp(Timestamp.Timestamp(Some(1700000000), None)), Data.Active(true)]
  {
    CodingOnlyThree();
    OnlyThreeStaticStartup(CodingGlobals(), CodingState, CodingStart, CodingActive);
  }

  /** That script reports the five unset fields as missing, in watch-list order. */
  lemma CodingMissing()
    ensures MissingNames(CodingGlobals(), Fields) == ["Details", "Button1", "Button2", "LargeImage", "SmallImage"]
  {
    CodingOnlyThree();
    OnlyThreeStaticMissing(CodingGlobals(), CodingState, CodingStart, CodingActive);
  }

  /** That script starts no worker: every field is Static or missing. */
  lemma CodingStartsNoWorker()
    ensures Workers(CodingGlobals(), Fields) == []
  {
    CodingOnlyThree();
    OnlyThreeStaticNoWorker(CodingGlobals(), CodingState, CodingStart, CodingActive);
  }

  /** The first two of those updates only fill the record: the presence is still
      off, so nothing is published. */
  lemma CodingFillsRecord()
    ensures var statics := [Data.State("Coding"), Data.Timestamp(Timestamp.Timestamp(Some(1700000000), None))];
      && Run(Empty(), statics) == Empty().(state := Some("Coding"), timestamp := Some(Timestamp.Timestamp(Some(1700000000), None)))
      && RunEffects(Empty(), statics) == []
  {
    var statics := [Data.State("Coding"), Data.Timestamp(Timestamp.Timestamp(Some(1700000000), None))];
    RunSplit(Empty(), [], statics[0]);
    assert [] + [statics[0]] == [statics[0]];
    RunSplit(Empty(), [statics[0]], statics[1]);
    assert [statics[0]] + [statics[1]] == statics;
  }

  /** Receiving those three updates from the empty record makes the client see
      exactly one publish: the state, the start time and nothing else. */
  lemma CodingPublishesOnce()
    ensures RunEffects(Empty(), [Data.State("Coding"), Data.Timestamp(Timestamp.Timestamp(Some(1700000000), None)), Data.Active(true)])
         == [Publish(Payload(Some("Coding"), None, Some(Timestamps(Some(1700000000), None)), None, None))]
  {
    var filled := [Data.State("Coding"), Data.Timestamp(Timestamp.Timestamp(Some(1700000000), None))];
    CodingFillsRecord();
    RunSplit(Empty(), filled, Data.Active(true));
    assert filled + [Data.Active(true)]
        == [Data.State("Coding"), Data.Timestamp(Timestamp.Timestamp(Some(1700000000), None)), Data.Active(true)];
  }

  /** Without an `Active` global the Active field reads nil, which is false: startup
      ends by switching the presence off, and the client sees a clear. */
  lemma MissingActiveSwitchesOff(globals: map<string, Value>)
    requires "Active" !in globals
    ensures var statics := StaticUpdates(globals, Fields);
      statics != [] && statics[|statics| - 1] == Data.Active(false)
  {
    assert Fields[..|Fields|] == Fields;
  }

  /** `Active = { 5, function() return true end }`, with the accessor followed for
      `n + 1` calls: the field polls every five seconds, and its worker sends a
      switch-on on every one of those ticks. */
  lemma PollScenario(n: nat)
    ensures var global := Table([Int(5), Func(Returned(Bool(true)), seq(n, _ => Returned(Bool(true))))], map[]);
      && Classify(Tag.Active, global) == Ok(Poll(5))
      && Sent(Tag.Active, Poll(5), global) == seq(n + 1, _ => Data.Active(true))
  {
    var global := Table([Int(5), Func(Returned(Bool(true)), seq(n, _ => Returned(Bool(true))))], map[]);
    var calls := [Returned(Bool(true))] + seq(n, _ => Returned(Bool(true)));
    assert Slot(global, 1) == Int(5);
    assert PollSource(global) == Some(calls);
    var steps := PollSteps(Tag.Active, calls);
    var ons := seq(n + 1, _ => Data.Active(true));
    assert forall j :: 0 <= j < |steps| ==> calls[j] == Returned(Bool(true)) && steps[j] == Some(ons[j]);
    EmissionsUnique(steps, ons, Sent(Tag.Active, Poll(5), global));
  }

  /** A poll table whose accessor raises on its first call still classifies as Poll,
      but its worker sends nothing: the first call ends it. */
  lemma RaisingAccessorSendsNothing(tag: Tag, rate: i64, message: string, later: seq<Outcome>)
    requires rate >= 0
    ensures var global := Table([Int(rate), Func(Raised(message), later)], map[]);
      && Classify(tag, global) == Ok(Poll(rate as int))
      && Sent(tag, Poll(rate as int), global) == []
  {
    var global := Table([Int(rate), Func(Raised(message), later)], map[]);
    assert Slot(global, 1) == Int(rate);
    assert PollSteps(tag, PollSource(global).value)[0] == None;
  }

  /** Repeated switch-ons from the empty record store nothing but the flag, and each
      one publishes a payload with every part absent. */
  lemma {:induction false} SwitchOnTicks(ons: seq<Data>)
    requires forall i :: 0 <= i < |ons| ==> ons[i] == Data.Active(true)
    ensures Run(Empty(), ons) == Empty().(active := ons != [])
    ensures RunEffects(Empty(), ons) == seq(|ons|, _ => Publish(Payload(None, None, None, None, None)))
  {
    if ons != [] {
      var init := ons[..|ons| - 1];
      SwitchOnTicks(init);
      RunSplit(Empty(), init, Data.Active(true));
      assert ons == init + [Data.Active(true)];
      assert PayloadOf(Empty().(active := true)) == Payload(None, None, None, None, None);
    }
  }
}
