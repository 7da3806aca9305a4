/**
 * How a field's script global is turned into an update strategy, and what each
 * strategy sends to the aggregator (src/lua.rs).
 *
 * The workers run on their own threads in the program; here each one is a method
 * that returns the sequence of updates it sends, in order. A Poll worker never
 * stops on its own, so it is run for as many ticks as its accessor has modelled
 * call outcomes.
 */
module Lua {
  import opened Wrappers
  import opened Script
  import opened Activity

  /** The update strategy of one field. */
  datatype Variable = Poll(rate: nat) | Listen | Static(value: Data)

  /** What a value comes to once every zero-argument function in front of it has been called. */
  function Settle(v: Value): Outcome
  {
    match v
    case Func(Returned(w), _) => Settle(w)
    case Func(Raised(e), _) => Raised(e)
    case _ => Returned(v)
  }

  /** True when `v` is a table whose first slot reads as an unsigned 64-bit integer. */
  predicate IsPollTable(v: Value)
  {
    v.Table? && ToU64(Slot(v, 1)).Ok?
  }

  /**
   * Classification of a field's global, first match wins: a table whose slot 1 is
   * an unsigned integer polls at that rate; any other table is decoded whole; a
   * coroutine is listened to; a function is called and its result classified
   * again; anything else is decoded as the field's payload.
   */
  function Classify(tag: Tag, v: Value): (r: Result<Variable, Error>)
    ensures r.Ok? && r.value.Static? ==> r.value.value.FieldTag() == tag
  {
    match v
    case Table(_, _) =>
      var rate := ToU64(Slot(v, 1));
      if rate.Ok? then Ok(Poll(rate.value))
      else
        var d :- Decode(tag, v);
        Ok(Static(d))
    case Thread(_) => Ok(Listen)
    case Func(Returned(w), _) => Classify(tag, w)
    case Func(Raised(e), _) => Err(RuntimeError(e))
    case _ =>
      var d :- Decode(tag, v);
      Ok(Static(d))
  }

  /** Classification in terms of the value reached by calling through functions: a
      call error fails; a poll table polls at its slot-1 rate; a coroutine is
      listened to; anything else is Static exactly when it decodes, and fails otherwise. */
  lemma {:induction false} ClassifySettled(tag: Tag, v: Value)
    ensures Settle(v).Raised? ==> Classify(tag, v) == Err(RuntimeError(Settle(v).message))
    ensures Settle(v).Returned? && IsPollTable(Settle(v).v) ==>
      Classify(tag, v) == Ok(Poll(ToU64(Slot(Settle(v).v, 1)).value))
    ensures Settle(v).Returned? && Settle(v).v.Thread? ==> Classify(tag, v) == Ok(Listen)
    ensures Settle(v).Returned? && !IsPollTable(Settle(v).v) && !Settle(v).v.Thread? ==>
      (Classify(tag, v).Ok? <==> Decode(tag, Settle(v).v).Ok?)
      && (Classify(tag, v).Ok? ==> Classify(tag, v) == Ok(Static(Decode(tag, Settle(v).v).value)))
  {
    match v
    case Func(Returned(w), _) => ClassifySettled(tag, w);
    case _ =>
  }

  /** A value behind `n` zero-argument functions: `function() return function() ... v end end`. */
  function Thunk(n: nat, v: Value): Value
  {
    if n == 0 then v else Func(Returned(Thunk(n - 1, v)), [])
  }

  /** Calling through any number of zero-argument functions does not change the classification. */
  lemma {:induction false} ClassifyThroughCalls(tag: Tag, n: nat, v: Value)
    ensures Classify(tag, Thunk(n, v)) == Classify(tag, v)
  {
    if n > 0 {
      ClassifyThroughCalls(tag, n - 1, v);
    }
  }

  /** Classification looks through any number of function calls, but a worker looks
      through only one: a coroutine or poll table behind two or more calls is
      classified Listen or Poll, and its worker then finds nothing to run. */
  lemma {:induction false} DeepIndirectionStartsIdleWorker(tag: Tag, n: nat, v: Value)
    requires n >= 2
    ensures Classify(tag, Thunk(n, v)) == Classify(tag, v)
    ensures ListenSource(Thunk(n, v)).None? && PollSource(Thunk(n, v)).None?
  {
    ClassifyThroughCalls(tag, n, v);
    assert Thunk(n, v) == Func(Returned(Func(Returned(Thunk(n - 2, v)), [])), []);
  }

  /** What one resume of a Listen coroutine gives the worker: a present value that
      decodes, or None when nil, an error or a failed decode ends the stream. */
  function ResumeStep(tag: Tag, o: Outcome): (r: Option<Data>)
    ensures r.Some? <==> o.Returned? && !o.v.Nil? && Decode(tag, o.v).Ok?
    ensures r.Some? ==> r.value == Decode(tag, o.v).value && r.value.FieldTag() == tag
  {
    match o
    case Raised(_) => None
    case Returned(v) =>
      if v.Nil? then None
      else match Decode(tag, v)
        case Ok(d) => Some(d)
        case Err(_) => None
  }

  /** What one call of a Poll accessor gives the worker: its decoded result, or None
      when the call raises or the result does not decode (the worker then stops). */
  function PollStep(tag: Tag, o: Outcome): (r: Option<Data>)
    ensures r.Some? <==> o.Returned? && Decode(tag, o.v).Ok?
    ensures r.Some? ==> r.value == Decode(tag, o.v).value && r.value.FieldTag() == tag
  {
    match o
    case Raised(_) => None
    case Returned(v) =>
      match Decode(tag, v)
      case Ok(d) => Some(d)
      case Err(_) => None
  }

  function ListenSteps(tag: Tag, resumes: seq<Outcome>): (steps: seq<Option<Data>>)
    ensures |steps| == |resumes|
  {
    seq(|resumes|, i requires 0 <= i < |resumes| => ResumeStep(tag, resumes[i]))
  }

  function PollSteps(tag: Tag, replies: seq<Outcome>): (steps: seq<Option<Data>>)
    ensures |steps| == |replies|
  {
    seq(|replies|, i requires 0 <= i < |replies| => PollStep(tag, replies[i]))
  }

  /** `emitted` is what a worker sends when its successive steps are `steps`: every
      value in order up to the first step that has none, and nothing from there on. */
  predicate EmitsUntilFirstGap(steps: seq<Option<Data>>, emitted: seq<Data>)
  {
    && |emitted| <= |steps|
    && (forall j :: 0 <= j < |emitted| ==> steps[j] == Some(emitted[j]))
    && (|emitted| < |steps| ==> steps[|emitted|].None?)
  }

  /** The emissions of a worker are determined by its steps. */
  lemma EmissionsUnique(steps: seq<Option<Data>>, e1: seq<Data>, e2: seq<Data>)
    requires EmitsUntilFirstGap(steps, e1) && EmitsUntilFirstGap(steps, e2)
    ensures e1 == e2
  {
  }

  /** The values of `steps` up to the first step that has none. */
  function UntilGap(steps: seq<Option<Data>>): (emitted: seq<Data>)
    ensures EmitsUntilFirstGap(steps, emitted)
  {
    if steps == [] || steps[0].None? then []
    else
      var rest := UntilGap(steps[1..]);
      assert forall j :: 1 <= j < 1 + |rest| ==> steps[j] == steps[1..][j - 1];
      [steps[0].value] + rest
  }

  /** The coroutine a Listen worker finds in its own interpreter: the global itself,
      or what the global function returns; anything else makes the worker panic. */
  function ListenSource(global: Value): (r: Option<seq<Outcome>>)
    ensures r.Some? <==> global.Thread? || (global.Func? && global.ret.Returned? && global.ret.v.Thread?)
    ensures global.Thread? ==> r == Some(global.resumes)
    ensures global.Func? && global.ret.Returned? && global.ret.v.Thread? ==> r == Some(global.ret.v.resumes)
  {
    match global
    case Thread(resumes) => Some(resumes)
    case Func(Returned(Thread(resumes)), _) => Some(resumes)
    case _ => None
  }

  /** The accessor a Poll worker finds in its own interpreter: slot 2 of the global
      table, or of the table the global function returns; otherwise it panics. The
      result is what the accessor gives on successive calls. */
  function PollSource(global: Value): (r: Option<seq<Outcome>>)
    ensures global.Table? ==> (r.Some? <==> Slot(global, 2).Func?)
    ensures global.Table? && r.Some? ==> r.value == [Slot(global, 2).ret] + Slot(global, 2).later
    ensures global.Func? && global.ret.Returned? && global.ret.v.Table? ==>
      (r.Some? <==> Slot(global.ret.v, 2).Func?)
    ensures global.Func? && global.ret.Returned? && global.ret.v.Table? && r.Some? ==>
      r.value == [Slot(global.ret.v, 2).ret] + Slot(global.ret.v, 2).later
    ensures !global.Table? && !(global.Func? && global.ret.Returned? && global.ret.v.Table?) ==> r.None?
  {
    var table :=
      match global
      case Table(_, _) => Some(global)
      case Func(Returned(t), _) => if t.Table? then Some(t) else None
      case _ => None;
    if table.Some? && Slot(table.value, 2).Func? then
      var accessor := Slot(table.value, 2);
      Some([accessor.ret] + accessor.later)
    else None
  }

  /** What a strategy sends: a Static value once; a worker, the values of its
      coroutine or accessor up to the first gap; a worker that finds neither, nothing. */
  function Sent(tag: Tag, variable: Variable, global: Value): (r: seq<Data>)
    ensures variable.Static? ==> r == [variable.value]
    ensures variable.Listen? && ListenSource(global).None? ==> r == []
    ensures variable.Listen? && ListenSource(global).Some? ==>
      EmitsUntilFirstGap(ListenSteps(tag, ListenSource(global).value), r)
    ensures variable.Poll? && PollSource(global).None? ==> r == []
    ensures variable.Poll? && PollSource(global).Some? ==>
      EmitsUntilFirstGap(PollSteps(tag, PollSource(global).value), r)
    ensures !variable.Static? ==> forall d :: d in r ==> d.FieldTag() == tag
  {
    match variable
    case Static(d) => [d]
    case Listen =>
      var source := ListenSource(global);
      if source.None? then [] else SentFrom(ListenSteps(tag, source.value), tag)
    case Poll(_) =>
      var source := PollSource(global);
      if source.None? then [] else SentFrom(PollSteps(tag, source.value), tag)
  }

  /** The values of steps that each carry field `tag`, up to the first gap. */
  function SentFrom(steps: seq<Option<Data>>, tag: Tag): (r: seq<Data>)
    requires forall j :: 0 <= j < |steps| && steps[j].Some? ==> steps[j].value.FieldTag() == tag
    ensures r == UntilGap(steps)
    ensures forall d :: d in r ==> d.FieldTag() == tag
  {
    var r := UntilGap(steps);
    assert forall d :: d in r ==> exists j :: 0 <= j < |r| && r[j] == d;
    r
  }

  /** The Listen worker: resume until the coroutine gives no value, sending each value. */
  method ListenWorker(tag: Tag, global: Value) returns (emitted: seq<Data>)
    ensures ListenSource(global).None? ==> emitted == []
    ensures ListenSource(global).Some? ==>
      EmitsUntilFirstGap(ListenSteps(tag, ListenSource(global).value), emitted)
  {
    emitted := [];
    var source := ListenSource(global);
    if source.None? {
      return;
    }
    var resumes := source.value;
    var i := 0;
    while true
      invariant 0 <= i <= |resumes| && i == |emitted|
      invariant forall j :: 0 <= j < i ==> ResumeStep(tag, resumes[j]) == Some(emitted[j])
      decreases |resumes| - i
    {
      if i == |resumes| {
        // resuming a dead coroutine raises
        break;
      }
      match ResumeStep(tag, resumes[i]) {
        case Some(d) =>
          emitted := emitted + [d];
        case None =>
          break;
      }
      i := i + 1;
    }
  }

  /** The Poll worker: call the accessor once per tick and send what it returns. The
      first failing call or decode ends the worker; it is run for as many ticks as
      the accessor has modelled call outcomes. */
  method PollWorker(tag: Tag, global: Value) returns (emitted: seq<Data>)
    ensures PollSource(global).None? ==> emitted == []
    ensures PollSource(global).Some? ==> EmitsUntilFirstGap(PollSteps(tag, PollSource(global).value), emitted)
  {
    emitted := [];
    var source := PollSource(global);
    if source.None? {
      return;
    }
    var calls := source.value;
    var i := 0;
    while i < |calls|
      invariant 0 <= i <= |calls| && i == |emitted|
      invariant forall j :: 0 <= j < i ==> PollStep(tag, calls[j]) == Some(emitted[j])
    {
      match PollStep(tag, calls[i]) {
        case Some(d) =>
          emitted := emitted + [d];
        case None =>
          break;
      }
      i := i + 1;
    }
  }

  /** What starting a watcher leaves behind: whether a worker thread was spawned,
      and the updates it sends (or the one update a Static field sends at once). */
  datatype Started = Started(spawned: bool, emitted: seq<Data>)

  /** Running a strategy: Static sends its value once and spawns nothing; Poll and
      Listen always spawn a worker, which sends what `Sent` specifies. */
  method Watch(tag: Tag, variable: Variable, global: Value) returns (s: Started)
    ensures s.spawned <==> !variable.Static?
    ensures s.emitted == Sent(tag, variable, global)
  {
    match variable {
      case Static(d) =>
        s := Started(false, [d]);
      case Poll(_) =>
        var emitted := PollWorker(tag, global);
        if PollSource(global).Some? {
          EmissionsUnique(PollSteps(tag, PollSource(global).value), emitted, Sent(tag, variable, global));
        }
        s := Started(true, emitted);
      case Listen =>
        var emitted := ListenWorker(tag, global);
        if ListenSource(global).Some? {
          EmissionsUnique(ListenSteps(tag, ListenSource(global).value), emitted, Sent(tag, variable, global));
        }
        s := Started(true, emitted);
    }
  }

  /** Starting the watcher of field `tag` on global `name`: a failed classification is
      an error; otherwise a worker is spawned exactly for Poll and Listen, what is
      sent is what the strategy sends, and every update is for field `tag`. */
  method CreateWatcher(name: string, tag: Tag, globals: map<string, Value>)
    returns (r: Result<Started, Error>)
    ensures r.Err? <==> Classify(tag, Global(globals, name)).Err?
    ensures r.Ok? ==>
      var variable := Classify(tag, Global(globals, name)).value;
      r.value == Started(!variable.Static?, Sent(tag, variable, Global(globals, name)))
    ensures r.Ok? ==> forall d :: d in r.value.emitted ==> d.FieldTag() == tag
  {
    var global := Global(globals, name);
    var variable :- Classify(tag, global);
    var s := Watch(tag, variable, global);
    r := Ok(s);
  }
}
