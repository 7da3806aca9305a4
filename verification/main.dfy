/**
 * The daemon's main loop (src/main.rs): which globals are watched, where the
 * application id comes from, the presence record the receive loop updates one
 * message at a time, and the payload it publishes to the presence client.
 *
 * The presence client is represented by the log of calls made to it.
 */
module Disco {
  import opened Wrappers
  import opened Script
  import opened Activity
  import opened Lua

  /** The fields watched at startup, in order, each with the global it is read from. */
  const Fields: seq<(string, Tag)> := [
    ("State", Tag.State),
    ("Details", Tag.Details),
    ("Timestamp", Tag.Timestamp),
    ("Button1", Tag.FirstButton),
    ("Button2", Tag.SecondButton),
    ("LargeImage", Tag.LargeImage),
    ("SmallImage", Tag.SmallImage),
    ("Active", Tag.Active)
  ]

  /** Where field `tag` sits in the watch list: every field is watched. */
  function FieldIndex(tag: Tag): (i: nat)
    ensures i < |Fields| && Fields[i].1 == tag
  {
    match tag
    case State => 0
    case Details => 1
    case Timestamp => 2
    case FirstButton => 3
    case SecondButton => 4
    case LargeImage => 5
    case SmallImage => 6
    case Active => 7
  }

  /** No field is watched twice: the watch list holds each field at its own index. */
  lemma FieldIndexInverse(i: nat)
    requires i < |Fields|
    ensures FieldIndex(Fields[i].1) == i
  {
  }

  /** No two fields share a global. */
  lemma NamesDistinct()
    ensures forall i, j :: 0 <= i < j < |Fields| ==> Fields[i].0 != Fields[j].0
  {
  }

  /** The application id: the command-line value wins; otherwise the script's
      `ClientID` global, which must be a string. */
  function ClientId(flag: Option<string>, globals: map<string, Value>): (r: Result<string, Error>)
    ensures flag.Some? ==> r == Ok(flag.value)
    ensures flag.None? ==> (r.Ok? <==> Global(globals, "ClientID").Str?)
    ensures flag.None? && r.Ok? ==> r.value == Global(globals, "ClientID").s
  {
    match flag
    case Some(id) => Ok(id)
    case None => ToString(Global(globals, "ClientID"))
  }

  // ---------------------------------------------------------------------------
  // Startup

  /** The update field `f` sends at startup: its value when it is Static, none otherwise. */
  function StaticOf(globals: map<string, Value>, f: (string, Tag)): (s: seq<Data>)
    ensures |s| <= 1
    ensures forall d :: d in s ==> d.FieldTag() == f.1
  {
    var r := Classify(f.1, Global(globals, f.0));
    if r.Ok? && r.value.Static? then [r.value.value] else []
  }

  /** Field `f` sends an update at startup exactly when its global resolves to a
      Static strategy, and that update is the strategy's value. */
  lemma StaticOfValue(globals: map<string, Value>, f: (string, Tag))
    ensures StaticOf(globals, f) != [] <==> Classify(f.1, Global(globals, f.0)).Ok? && Classify(f.1, Global(globals, f.0)).value.Static?
    ensures StaticOf(globals, f) != [] ==> StaticOf(globals, f) == [Classify(f.1, Global(globals, f.0)).value.value]
  {
  }

  /** What the fields of `fields` give, one after the other, when field f gives `each(f)`. */
  function Collect<T>(fields: seq<(string, Tag)>, each: ((string, Tag)) -> seq<T>): seq<T>
  {
    if fields == [] then []
    else Collect(fields[..|fields| - 1], each) + each(fields[|fields| - 1])
  }

  lemma CollectPrefix<T>(fields: seq<(string, Tag)>, each: ((string, Tag)) -> seq<T>, k: nat)
    requires k < |fields|
    ensures Collect(fields[..k + 1], each) == Collect(fields[..k], each) + each(fields[k])
  {
    assert fields[..k + 1][..k] == fields[..k];
  }

  /** The updates the Static fields among `fields` send at startup, in order. */
  function StaticUpdates(globals: map<string, Value>, fields: seq<(string, Tag)>): seq<Data>
  {
    Collect(fields, f => StaticOf(globals, f))
  }

  /** The name field `f` is reported under at startup when it resolves to no strategy. */
  function MissingOf(globals: map<string, Value>, f: (string, Tag)): (names: seq<string>)
    ensures names == [f.0] <==> Classify(f.1, Global(globals, f.0)).Err?
    ensures names == [] <==> Classify(f.1, Global(globals, f.0)).Ok?
  {
    if Classify(f.1, Global(globals, f.0)).Err? then [f.0] else []
  }

  /** The names among `fields` that resolve to no strategy ("No value for ..."), in order. */
  function MissingNames(globals: map<string, Value>, fields: seq<(string, Tag)>): seq<string>
  {
    Collect(fields, f => MissingOf(globals, f))
  }

  /** A worker thread and the updates it sends. */
  datatype Worker = Worker(tag: Tag, emitted: seq<Data>)

  /** The worker field `f` gets at startup: one when it is Poll or Listen, none otherwise. */
  function WorkerOf(globals: map<string, Value>, f: (string, Tag)): (ws: seq<Worker>)
    ensures |ws| <= 1
    ensures ws != [] <==> Classify(f.1, Global(globals, f.0)).Ok? && !Classify(f.1, Global(globals, f.0)).value.Static?
    ensures forall w :: w in ws ==> w.tag == f.1
    ensures forall w, d :: w in ws && d in w.emitted ==> d.FieldTag() == w.tag
  {
    var global := Global(globals, f.0);
    var r := Classify(f.1, global);
    if r.Ok? && !r.value.Static? then [Worker(f.1, Sent(f.1, r.value, global))] else []
  }

  /** The workers the fields among `fields` get at startup, in order. */
  function Workers(globals: map<string, Value>, fields: seq<(string, Tag)>): seq<Worker>
  {
    Collect(fields, f => WorkerOf(globals, f))
  }

  /**
   * Starting every watcher in turn. A field that fails to resolve is reported by
   * name and skipped; a Static field sends its one update at once; a Poll or
   * Listen field gets a worker of its own.
   */
  method StartWatchers(globals: map<string, Value>)
    returns (statics: seq<Data>, workers: seq<Worker>, missing: seq<string>)
    ensures statics == StaticUpdates(globals, Fields)
    ensures workers == Workers(globals, Fields)
    ensures missing == MissingNames(globals, Fields)
  {
    statics, workers, missing := [], [], [];
    for k := 0 to |Fields|
      invariant statics == StaticUpdates(globals, Fields[..k])
      invariant workers == Workers(globals, Fields[..k])
      invariant missing == MissingNames(globals, Fields[..k])
    {
      var (name, tag) := Fields[k];
      CollectPrefix(Fields, f => StaticOf(globals, f), k);
      CollectPrefix(Fields, f => WorkerOf(globals, f), k);
      CollectPrefix(Fields, f => MissingOf(globals, f), k);
      var r := CreateWatcher(name, tag, globals);
      match r {
        case Err(_) =>
          missing := missing + [name];
        case Ok(started) =>
          if started.spawned {
            workers := workers + [Worker(tag, started.emitted)];
          } else {
            statics := statics + started.emitted;
          }
      }
    }
    assert Fields[..|Fields|] == Fields;
  }

  // ---------------------------------------------------------------------------
  // The presence record and the payload

  /** The fields of the presence record, as a value. */
  datatype Presence = Presence(
    active: bool,
    state: Option<string>,
    details: Option<string>,
    timestamp: Option<Timestamp>,
    button1: Option<Button>,
    button2: Option<Button>,
    largeImage: Option<Image>,
    smallImage: Option<Image>)

  /** What the record holds for field `tag`, as the update that would have set it. */
  function Stored(p: Presence, tag: Tag): Option<Data>
  {
    match tag
    case Active => Some(Data.Active(p.active))
    case State => if p.state.Some? then Some(Data.State(p.state.value)) else None
    case Details => if p.details.Some? then Some(Data.Details(p.details.value)) else None
    case Timestamp => if p.timestamp.Some? then Some(Data.Timestamp(p.timestamp.value)) else None
    case FirstButton => if p.button1.Some? then Some(Data.FirstButton(p.button1.value)) else None
    case SecondButton => if p.button2.Some? then Some(Data.SecondButton(p.button2.value)) else None
    case LargeImage => if p.largeImage.Some? then Some(Data.LargeImage(p.largeImage.value)) else None
    case SmallImage => if p.smallImage.Some? then Some(Data.SmallImage(p.smallImage.value)) else None
  }

  /** The record at startup: inactive, nothing stored. */
  function Empty(): (p: Presence)
    ensures !p.active
    ensures forall t :: t != Tag.Active ==> Stored(p, t).None?
  {
    Presence(false, None, None, None, None, None, None, None)
  }

  /** One message of the receive loop: its own field is overwritten, nothing else changes. */
  function Apply(p: Presence, update: Data): (q: Presence)
    ensures Stored(q, update.FieldTag()) == Some(update)
    ensures forall t :: t != update.FieldTag() ==> Stored(q, t) == Stored(p, t)
  {
    match update
    case Active(v) => p.(active := v)
    case State(v) => p.(state := Some(v))
    case Details(v) => p.(details := Some(v))
    case Timestamp(v) => p.(timestamp := Some(v))
    case FirstButton(v) => p.(button1 := Some(v))
    case SecondButton(v) => p.(button2 := Some(v))
    case LargeImage(v) => p.(largeImage := Some(v))
    case SmallImage(v) => p.(smallImage := Some(v))
  }

  datatype Timestamps = Timestamps(start: Option<i64>, end: Option<i64>)

  datatype LinkButton = LinkButton(text: string, url: string)

  datatype Assets = Assets(
    largeImage: Option<string>,
    largeText: Option<string>,
    smallImage: Option<string>,
    smallText: Option<string>)

  /** The activity sent to the presence client; an absent part is left out of it. */
  datatype Payload = Payload(
    state: Option<string>,
    details: Option<string>,
    timestamps: Option<Timestamps>,
    buttons: Option<seq<LinkButton>>,
    assets: Option<Assets>)

  function Link(b: Button): LinkButton
  {
    LinkButton(b.text, b.url)
  }

  function Count<T>(o: Option<T>): nat
  {
    if o.Some? then 1 else 0
  }

  /** The payload published for record `p`. */
  function PayloadOf(p: Presence): (pl: Payload)
    ensures pl.state == p.state && pl.details == p.details
    ensures pl.timestamps.Some? <==> p.timestamp.Some?
    ensures pl.timestamps.Some? ==>
      pl.timestamps.value.start == p.timestamp.value.start && pl.timestamps.value.end == p.timestamp.value.end
    ensures pl.buttons.Some? <==> p.button1.Some? || p.button2.Some?
    ensures pl.buttons.Some? ==> |pl.buttons.value| == Count(p.button1) + Count(p.button2) <= 2
    ensures pl.buttons.Some? && p.button1.Some? ==> pl.buttons.value[0] == Link(p.button1.value)
    ensures pl.buttons.Some? && p.button2.Some? ==> pl.buttons.value[|pl.buttons.value| - 1] == Link(p.button2.value)
    ensures pl.assets.Some? <==> p.largeImage.Some? || p.smallImage.Some?
    ensures pl.assets.Some? ==>
      && (pl.assets.value.largeImage.Some? <==> p.largeImage.Some?)
      && (pl.assets.value.smallImage.Some? <==> p.smallImage.Some?)
      && (p.largeImage.Some? ==> pl.assets.value.largeImage.value == p.largeImage.value.asset
                                  && pl.assets.value.largeText == p.largeImage.value.text)
      && (p.smallImage.Some? ==> pl.assets.value.smallImage.value == p.smallImage.value.asset
                                  && pl.assets.value.smallText == p.smallImage.value.text)
      && (p.largeImage.None? ==> pl.assets.value.largeText.None?)
      && (p.smallImage.None? ==> pl.assets.value.smallText.None?)
  {
    var buttons :=
      (if p.button1.Some? then [Link(p.button1.value)] else [])
      + (if p.button2.Some? then [Link(p.button2.value)] else []);
    Payload(
      p.state,
      p.details,
      if p.timestamp.Some? then Some(Timestamps(p.timestamp.value.start, p.timestamp.value.end)) else None,
      if buttons != [] then Some(buttons) else None,
      if p.largeImage.None? && p.smallImage.None? then None
      else Some(Assets(
        if p.largeImage.Some? then Some(p.largeImage.value.asset) else None,
        if p.largeImage.Some? then p.largeImage.value.text else None,
        if p.smallImage.Some? then Some(p.smallImage.value.asset) else None,
        if p.smallImage.Some? then p.smallImage.value.text else None)))
  }

  /** A call made to the presence client. */
  datatype Effect = Publish(payload: Payload) | Clear

  /** What processing record `p` does to the client: publish when active, nothing otherwise. */
  function Published(p: Presence): (es: seq<Effect>)
    ensures p.active <==> es == [Publish(PayloadOf(p))]
    ensures !p.active <==> es == []
  {
    if p.active then [Publish(PayloadOf(p))] else []
  }

  /** What one message does to the client: a switch-off clears and publishes nothing;
      every other message publishes exactly when the record is then active. */
  function Reaction(p: Presence, update: Data): (es: seq<Effect>)
    ensures es == [Clear] <==> update == Data.Active(false)
    ensures es == [Publish(PayloadOf(Apply(p, update)))] <==> Apply(p, update).active
    ensures es == [] <==> !Apply(p, update).active && update != Data.Active(false)
  {
    if update == Data.Active(false) then
      assert !Apply(p, update).active;
      [Clear]
    else
      Published(Apply(p, update))
  }

  /** The record after receiving `updates` in order. */
  function Run(p: Presence, updates: seq<Data>): Presence
  {
    if updates == [] then p
    else Apply(Run(p, updates[..|updates| - 1]), updates[|updates| - 1])
  }

  /** The calls made to the client while receiving `updates` in order. */
  function RunEffects(p: Presence, updates: seq<Data>): seq<Effect>
  {
    if updates == [] then []
    else
      var init := updates[..|updates| - 1];
      RunEffects(p, init) + Reaction(Run(p, init), updates[|updates| - 1])
  }

  lemma RunSplit(p: Presence, updates: seq<Data>, d: Data)
    ensures (updates + [d])[..|updates|] == updates
    ensures Run(p, updates + [d]) == Apply(Run(p, updates), d)
    ensures RunEffects(p, updates + [d]) == RunEffects(p, updates) + Reaction(Run(p, updates), d)
  {
    assert (updates + [d])[..|updates|] == updates;
  }

  /** Receiving the message at index `i` extends the fold over the messages before it. */
  lemma RunStep(p: Presence, updates: seq<Data>, i: nat)
    requires i < |updates|
    ensures Run(p, updates[..i + 1]) == Apply(Run(p, updates[..i]), updates[i])
    ensures RunEffects(p, updates[..i + 1]) == RunEffects(p, updates[..i]) + Reaction(Run(p, updates[..i]), updates[i])
  {
    assert updates[..i + 1] == updates[..i] + [updates[i]];
    RunSplit(p, updates[..i], updates[i]);
  }

  /** Last write wins: after an update, its field holds that update until another
      update of the same field arrives. */
  lemma {:induction false} LastWriteWins(p: Presence, before: seq<Data>, d: Data, after: seq<Data>)
    requires forall e :: e in after ==> e.FieldTag() != d.FieldTag()
    ensures Stored(Run(p, before + [d] + after), d.FieldTag()) == Some(d)
  {
    if after == [] {
      assert before + [d] + after == before + [d];
      RunSplit(p, before, d);
    } else {
      var init := after[..|after| - 1];
      var last := after[|after| - 1];
      assert last in after;
      assert forall e :: e in init ==> e in after;
      LastWriteWins(p, before, d, init);
      assert before + [d] + after == (before + [d] + init) + [last];
      RunSplit(p, before + [d] + init, last);
    }
  }

  /** Whatever one message publishes is the payload of the record after it. */
  lemma ReactionPublishes(q: Presence, d: Data)
    ensures forall e :: e in Reaction(q, d) && e.Publish? ==> e.payload == PayloadOf(Apply(q, d))
  {
  }

  /** Messages for other fields leave the stored State alone, and every payload they
      cause to be published shows it. */
  lemma {:induction false} StateKept(q: Presence, after: seq<Data>)
    requires forall e :: e in after ==> !e.State?
    ensures Run(q, after).state == q.state
    ensures forall e :: e in RunEffects(q, after) && e.Publish? ==> e.payload.state == q.state
  {
    if after != [] {
      var init := after[..|after| - 1];
      var last := after[|after| - 1];
      assert after == init + [last];
      assert forall e :: e in init ==> e in after;
      StateKept(q, init);
      RunSplit(q, init, last);
      var r := Run(q, init);
      assert Apply(r, last).state == r.state by {
        assert last in after;
      }
      ReactionPublishes(r, last);
    }
  }

  /** Once State is set to `s`, every payload published is shown with `s` until
      another State update arrives. */
  lemma PublishesShowLastState(p: Presence, before: seq<Data>, s: string, after: seq<Data>)
    requires forall e :: e in after ==> !e.State?
    ensures forall e :: e in RunEffects(Run(p, before + [Data.State(s)]), after) && e.Publish? ==>
      e.payload.state == Some(s)
  {
    RunSplit(p, before, Data.State(s));
    StateKept(Run(p, before + [Data.State(s)]), after);
  }

  /** One message received while inactive that is not a switch-on: the record stays
      inactive and the client sees a clear for a switch-off, nothing otherwise. */
  lemma QuietStep(q: Presence, d: Data)
    requires !q.active && d != Data.Active(true)
    ensures !Apply(q, d).active
    ensures Reaction(q, d) == if d == Data.Active(false) then [Clear] else []
  {
    assert Stored(Apply(q, d), Tag.Active) == Some(Data.Active(Apply(q, d).active));
  }

  /** While inactive, and until something switches the presence back on, nothing is
      published: the client sees one clear per switch-off and nothing else. */
  lemma {:induction false} SilentWhileInactive(p: Presence, updates: seq<Data>)
    requires !p.active
    requires Data.Active(true) !in updates
    ensures !Run(p, updates).active
    ensures forall e :: e in RunEffects(p, updates) ==> e == Clear
    ensures |RunEffects(p, updates)| == multiset(updates)[Data.Active(false)]
  {
    if updates != [] {
      var init := updates[..|updates| - 1];
      var last := updates[|updates| - 1];
      assert updates == init + [last];
      assert Data.Active(true) !in init;
      SilentWhileInactive(p, init);
      RunSplit(p, init, last);
      QuietStep(Run(p, init), last);
      ClearsStep(RunEffects(p, init), Reaction(Run(p, init), last), init, last);
    }
  }

  /** Counting the clears of one more message received while inactive. */
  lemma ClearsStep(before: seq<Effect>, step: seq<Effect>, init: seq<Data>, last: Data)
    requires forall e :: e in before ==> e == Clear
    requires |before| == multiset(init)[Data.Active(false)]
    requires step == if last == Data.Active(false) then [Clear] else []
    ensures forall e :: e in before + step ==> e == Clear
    ensures |before + step| == multiset(init + [last])[Data.Active(false)]
  {
    assert multiset(init + [last]) == multiset(init) + multiset{last};
  }

  /** Switching the presence off and on keeps every stored field: the switch-off
      clears, and the switch-on republishes the payload of the values stored before. */
  lemma ToggleRepublishes(p: Presence)
    ensures Run(p, [Data.Active(false), Data.Active(true)]) == p.(active := true)
    ensures RunEffects(p, [Data.Active(false), Data.Active(true)]) == [Clear, Publish(PayloadOf(p.(active := true)))]
  {
    RunSplit(p, [], Data.Active(false));
    assert [] + [Data.Active(false)] == [Data.Active(false)];
    RunSplit(p, [Data.Active(false)], Data.Active(true));
    assert [Data.Active(false)] + [Data.Active(true)] == [Data.Active(false), Data.Active(true)];
  }

  // ---------------------------------------------------------------------------
  // The client and the receive loop

  /** The presence client, seen through the calls made to it. */
  class Client {
    var log: seq<Effect>

    constructor ()
      ensures log == []
    {
      log := [];
    }

    method SetActivity(payload: Payload)
      modifies this
      ensures log == old(log) + [Publish(payload)]
    {
      log := log + [Publish(payload)];
    }

    method ClearActivity()
      modifies this
      ensures log == old(log) + [Clear]
    {
      log := log + [Clear];
    }
  }

  /** The presence record the receive loop owns and updates in place. */
  class DiscoActivity {
    var active: bool
    var state: Option<string>
    var details: Option<string>
    var timestamp: Option<Timestamp>
    var button1: Option<Button>
    var button2: Option<Button>
    var largeImage: Option<Image>
    var smallImage: Option<Image>

    function Snapshot(): Presence
      reads this
    {
      Presence(active, state, details, timestamp, button1, button2, largeImage, smallImage)
    }

    constructor ()
      ensures Snapshot() == Empty()
    {
      active := false;
      state, details := None, None;
      timestamp := None;
      button1, button2 := None, None;
      largeImage, smallImage := None, None;
    }

    /** Publishing the record: when active, build the payload part by part and send it. */
    method Process(client: Client)
      modifies client
      ensures client.log == old(client.log) + Published(Snapshot())
    {
      ghost var record := Snapshot();
      ghost var expected := PayloadOf(record);
      if active {
        var activity := Payload(None, None, None, None, None);
        if state.Some? {
          activity := activity.(state := Some(state.value));
        }
        if details.Some? {
          activity := activity.(details := Some(details.value));
        }

        if timestamp.Some? {
          var timestamps := Timestamps(None, None);
          if timestamp.value.start.Some? {
            timestamps := timestamps.(start := Some(timestamp.value.start.value));
          }
          if timestamp.value.end.Some? {
            timestamps := timestamps.(end := Some(timestamp.value.end.value));
          }
          assert timestamps == Timestamps(timestamp.value.start, timestamp.value.end);
          activity := activity.(timestamps := Some(timestamps));
        }
        assert activity == Payload(state, details, expected.timestamps, None, None);

        var buttons: seq<LinkButton> := [];
        var buttonsSet := false;
        if button1.Some? {
          buttons := buttons + [LinkButton(button1.value.text, button1.value.url)];
          buttonsSet := true;
        }
        if button2.Some? {
          buttons := buttons + [LinkButton(button2.value.text, button2.value.url)];
          buttonsSet := true;
        }
        assert buttons == (if button1.Some? then [Link(button1.value)] else [])
          + (if button2.Some? then [Link(button2.value)] else []);
        assert buttonsSet <==> buttons != [];
        if buttonsSet {
          activity := activity.(buttons := Some(buttons));
        }
        assert activity.buttons == expected.buttons;

        var assets := Assets(None, None, None, None);
        var assetsSet := false;
        if largeImage.Some? {
          if largeImage.value.text.Some? {
            assets := assets.(largeText := Some(largeImage.value.text.value));
          }
          assets := assets.(largeImage := Some(largeImage.value.asset));
          assetsSet := true;
        }
        assert assets.largeImage == (if largeImage.Some? then Some(largeImage.value.asset) else None);
        assert assets.largeText == (if largeImage.Some? then largeImage.value.text else None);
        if smallImage.Some? {
          if smallImage.value.text.Some? {
            assets := assets.(smallText := Some(smallImage.value.text.value));
          }
          assets := assets.(smallImage := Some(smallImage.value.asset));
          assetsSet := true;
        }
        assert assets.smallImage == (if smallImage.Some? then Some(smallImage.value.asset) else None);
        assert assets.smallText == (if smallImage.Some? then smallImage.value.text else None);
        if assetsSet {
          activity := activity.(assets := Some(assets));
        }
        assert activity == expected;
        client.SetActivity(activity);
      }
    }

    /** One turn of the receive loop: store the update, then process the record. */
    method Receive(update: Data, client: Client)
      modifies this, client
      ensures Snapshot() == Apply(old(Snapshot()), update)
      ensures client.log == old(client.log) + Reaction(old(Snapshot()), update)
    {
      match update {
        case Active(v) =>
          if !v {
            client.ClearActivity();
          }
          active := v;
        case State(v) => state := Some(v);
        case Details(v) => details := Some(v);
        case Timestamp(v) => timestamp := Some(v);
        case FirstButton(v) => button1 := Some(v);
        case SecondButton(v) => button2 := Some(v);
        case LargeImage(v) => largeImage := Some(v);
        case SmallImage(v) => smallImage := Some(v);
      }
      Process(client);
    }
  }

  /** The receive loop over the messages that arrive, in arrival order. */
  method ReceiveLoop(activity: DiscoActivity, client: Client, updates: seq<Data>)
    modifies activity, client
    ensures activity.Snapshot() == Run(old(activity.Snapshot()), updates)
    ensures client.log == old(client.log) + RunEffects(old(activity.Snapshot()), updates)
  {
    ghost var start := activity.Snapshot();
    for i := 0 to |updates|
      invariant activity.Snapshot() == Run(start, updates[..i])
      invariant client.log == old(client.log) + RunEffects(start, updates[..i])
    {
      RunStep(start, updates, i);
      activity.Receive(updates[i], client);
    }
    assert updates[..|updates|] == updates;
  }
}
