// pkg/component/watch.go WatchAndPush: the event goroutine and the ticker loop as steps on the state
// they share under the lock. The functions give each step; the class performs it on its fields.

module Watch {
  import opened Lists

  datatype Op = CREATE | WRITE | REMOVE | RENAME | CHMOD
  datatype Kind = Missing | File | Directory

  /** A file system notification, what Lstat says of its path, whether adding watches for it fails,
      and when it is handled. */
  datatype Event = Event(ops: set<Op>, name: string, kind: Kind, watchFails: bool, now: int)

  datatype Batch = Batch(files: seq<string>, deleted: seq<string>)

  /** `glob(p)` is whether an ignore pattern matches p, None for a malformed pattern; `rel` is the path
      relative to the source, None if there is none. */
  datatype Settings = Settings(path: string, delay: int, glob: string -> Option<bool>, rel: string -> Option<string>)

  datatype State = State(
    dirty: bool, lastChange: int, watchError: bool, finished: bool,
    changedFiles: seq<string>, deletedPaths: seq<string>)

  const START := State(false, 0, false, false, [], [])

  predicate Gone(e: Event) {
    REMOVE in e.ops || RENAME in e.ops
  }

  predicate Ignorable(e: Event) {
    !Gone(e) && (e.kind.Missing? || (e.kind.Directory? && WRITE in e.ops))
  }

  predicate Matched(name: string, settings: Settings) {
    settings.glob(name) == Some(true)
  }

  function RelativePath(name: string, settings: Settings): string {
    match settings.rel(name) case Some(p) => p case None => ""
  }

  /** The event goroutine. */
  function OnEvent(s: State, e: Event, settings: Settings): State {
    var already, matched := e.name in s.changedFiles, Matched(e.name, settings);
    var changed := if !already && !matched && !Ignorable(e) && REMOVE !in e.ops then s.changedFiles + [e.name]
                   else s.changedFiles;
    var reported := Gone(e) && !already && !matched && e.name != "";
    State(true, e.now,
          s.watchError || settings.glob(e.name).None? || (reported && settings.rel(e.name).None?) ||
          (!Gone(e) && e.watchFails),
          s.finished, changed,
          if reported then s.deletedPaths + [RelativePath(e.name, settings)] else s.deletedPaths)
  }

  predicate Pending(s: State) {
    s.changedFiles != [] || s.deletedPaths != []
  }

  predicate Due(s: State, now: int, settings: Settings) {
    s.dirty && now > s.lastChange + settings.delay && Pending(s)
  }

  /** The ticker loop: the state after one round and what it hands to the push, if anything. The push
      handler's error is not looked at. */
  function OnTick(s: State, now: int, source: Kind, settings: Settings): (State, Option<Batch>) {
    if s.watchError || (Due(s, now, settings) && source.Missing?) then (s.(finished := true), None)
    else if Due(s, now, settings) then
      (s.(dirty := false, changedFiles := [], deletedPaths := []),
       Some(Batch(if source.Directory? then s.changedFiles else [settings.path], s.deletedPaths)))
    else (s, None)
  }

  datatype Step = Notice(event: Event) | Interrupt | Tick(now: int, source: Kind)

  function After(s: State, step: Step, settings: Settings): (State, Option<Batch>) {
    if s.finished then (s, None)
    else match step
         case Notice(e) => (OnEvent(s, e, settings), None)
         case Interrupt => (s.(watchError := true), None)
         case Tick(now, source) => OnTick(s, now, source, settings)
  }

  // ------------------------------------------------------------ the object

  class Watcher {
    var dirty: bool
    var lastChange: int
    var watchError: bool
    var finished: bool
    var changedFiles: seq<string>
    var deletedPaths: seq<string>

    function Value(): State
      reads this
    {
      State(dirty, lastChange, watchError, finished, changedFiles, deletedPaths)
    }

    constructor ()
      ensures Value() == START
    {
      dirty, lastChange, watchError, finished, changedFiles, deletedPaths := false, 0, false, false, [], [];
    }

    method HandleEvent(e: Event, settings: Settings)
      requires !finished
      modifies this
      ensures Value() == After(old(Value()), Notice(e), settings).0
    {
      var isIgnoreEvent := false;
      if !(REMOVE in e.ops || RENAME in e.ops) {
        if e.kind.Missing? {
          isIgnoreEvent := true;
        }
        if isIgnoreEvent || (e.kind.Directory? && WRITE in e.ops) {
          isIgnoreEvent := true;
        }
      }
      var alreadyInChangedFiles := false;
      for i := 0 to |changedFiles|
        invariant !alreadyInChangedFiles && e.name !in changedFiles[..i]
      {
        if changedFiles[i] == e.name {
          alreadyInChangedFiles := true;
          break;
        }
      }
      var matched := settings.glob(e.name) == Some(true);
      if settings.glob(e.name).None? {
        watchError := true;
      }
      if !alreadyInChangedFiles && !matched && !isIgnoreEvent {
        if REMOVE !in e.ops {
          changedFiles := changedFiles + [e.name];
        }
      }
      lastChange := e.now;
      dirty := true;
      if REMOVE in e.ops || RENAME in e.ops {
        if !alreadyInChangedFiles && !matched && e.name != "" {
          var relPath := settings.rel(e.name);
          if relPath.None? {
            watchError := true;
          }
          deletedPaths := deletedPaths + [if relPath.Some? then relPath.value else ""];
        }
      } else if e.watchFails {
        watchError := true;
      }
    }

    method HandleTick(now: int, source: Kind, settings: Settings) returns (batch: Option<Batch>)
      requires !finished
      modifies this
      ensures (Value(), batch) == After(old(Value()), Tick(now, source), settings)
    {
      batch := None;
      if watchError {
        finished := true;
        return;
      }
      if dirty && now > lastChange + settings.delay {
        if |changedFiles| > 0 || |deletedPaths| > 0 {
          if source.Missing? {
            finished := true;
            return;
          }
          if source.Directory? {
            batch := Some(Batch(changedFiles, deletedPaths));
          } else {
            batch := Some(Batch([settings.path], deletedPaths));
          }
          dirty := false;
          changedFiles := [];
          deletedPaths := [];
        }
      }
    }
  }

  // ------------------------------------------------------------ what a window of events asks for

  /** An event that changes a file the push should copy. */
  predicate Changes(e: Event, settings: Settings) {
    !Matched(e.name, settings) && !Ignorable(e) && REMOVE !in e.ops
  }

  /** No earlier event of the window changed the same path. */
  predicate FirstOfName(window: seq<Event>, i: nat, settings: Settings)
    requires i < |window|
  {
    forall j :: 0 <= j < i ==> !(Changes(window[j], settings) && window[j].name == window[i].name)
  }

  predicate Deletes(window: seq<Event>, i: nat, settings: Settings)
    requires i < |window|
  {
    Gone(window[i]) && !Matched(window[i].name, settings) && window[i].name != "" && FirstOfName(window, i, settings)
  }

  /** The changed paths of a window, each at its first change. */
  function ChangedIn(window: seq<Event>, settings: Settings): seq<string> {
    if window == [] then []
    else
      var last := |window| - 1;
      ChangedIn(window[..last], settings) +
      if Changes(window[last], settings) && FirstOfName(window, last, settings) then [window[last].name] else []
  }

  /** The deleted paths of a window, in order, but for paths that changed before they went. */
  function DeletedIn(window: seq<Event>, settings: Settings): seq<string> {
    if window == [] then []
    else
      var last := |window| - 1;
      DeletedIn(window[..last], settings) +
      if Deletes(window, last, settings) then [RelativePath(window[last].name, settings)] else []
  }

  ghost predicate ChangedBy(window: seq<Event>, p: string, settings: Settings) {
    exists i :: 0 <= i < |window| && Changes(window[i], settings) && window[i].name == p
  }

  /** The changed paths are those that some event changed ... */
  lemma {:induction false} ChangedInIff(window: seq<Event>, settings: Settings, p: string)
    ensures p in ChangedIn(window, settings) <==> ChangedBy(window, p, settings)
  {
    if window != [] {
      var front, last := window[..|window| - 1], |window| - 1;
      ChangedInIff(front, settings, p);
      if ChangedBy(front, p, settings) {
        var i :| 0 <= i < |front| && Changes(front[i], settings) && front[i].name == p;
        assert Changes(window[i], settings) && window[i].name == p;
      }
      if ChangedBy(window, p, settings) && !ChangedBy(front, p, settings) {
        forall j | 0 <= j < last ensures !(Changes(window[j], settings) && window[j].name == p) {
          assert front[j] == window[j];
        }
      }
    }
  }

  lemma FirstIff(window: seq<Event>, e: Event, settings: Settings)
    ensures FirstOfName(window + [e], |window|, settings) <==> e.name !in ChangedIn(window, settings)
  {
    ChangedInIff(window, settings, e.name);
    var longer := window + [e];
    assert forall j :: 0 <= j < |window| ==> longer[j] == window[j];
  }

  /** ... each once. */
  lemma {:induction false} ChangedInDistinct(window: seq<Event>, settings: Settings)
    ensures Distinct(ChangedIn(window, settings))
  {
    if window != [] {
      var front, last := window[..|window| - 1], window[|window| - 1];
      assert window == front + [last];
      ChangedInDistinct(front, settings);
      FirstIff(front, last, settings);
    }
  }

  /** What the event loop has pending is what its window asks for. */
  ghost predicate Reflects(s: State, window: seq<Event>, settings: Settings) {
    s.changedFiles == ChangedIn(window, settings) && s.deletedPaths == DeletedIn(window, settings)
  }

  lemma WindowGrows(window: seq<Event>, e: Event, settings: Settings)
    ensures ChangedIn(window + [e], settings) == ChangedIn(window, settings) +
              if Changes(e, settings) && e.name !in ChangedIn(window, settings) then [e.name] else []
    ensures DeletedIn(window + [e], settings) == DeletedIn(window, settings) +
              if Gone(e) && !Matched(e.name, settings) && e.name != "" && e.name !in ChangedIn(window, settings)
              then [RelativePath(e.name, settings)] else []
  {
    var longer := window + [e];
    assert longer[..|longer| - 1] == window && longer[|longer| - 1] == e;
    FirstIff(window, e, settings);
  }

  lemma EventReflected(s: State, window: seq<Event>, e: Event, settings: Settings)
    requires Reflects(s, window, settings)
    ensures Reflects(OnEvent(s, e, settings), window + [e], settings)
  {
    WindowGrows(window, e, settings);
  }

  // ------------------------------------------------------------ runs

  /** A run so far: the state, the batches handed out with the time of each, the events each batch
      stands for, and the events since. */
  datatype Run = Run(state: State, batches: seq<Batch>, times: seq<int>, sources: seq<Kind>,
                     windows: seq<seq<Event>>, open: seq<Event>)

  function Extend(run: Run, step: Step, settings: Settings): Run {
    var (next, batch) := After(run.state, step, settings);
    if batch.Some? then
      Run(next, run.batches + [batch.value], run.times + [step.now], run.sources + [step.source],
          run.windows + [run.open], [])
    else run.(state := next, open := if step.Notice? && !run.state.finished then run.open + [step.event] else run.open)
  }

  function Execute(steps: seq<Step>, settings: Settings): Run {
    if steps == [] then Run(START, [], [], [], [], [])
    else Extend(Execute(steps[..|steps| - 1], settings), steps[|steps| - 1], settings)
  }

  /** The events that reach the loop, in order. */
  function Seen(steps: seq<Step>, settings: Settings): seq<Event> {
    if steps == [] then []
    else
      var last := steps[|steps| - 1];
      Seen(steps[..|steps| - 1], settings) +
      if last.Notice? && !Execute(steps[..|steps| - 1], settings).state.finished then [last.event] else []
  }

  function Joined(windows: seq<seq<Event>>): seq<Event> {
    if windows == [] then [] else Joined(windows[..|windows| - 1]) + windows[|windows| - 1]
  }

  /** A batch carries exactly what its window asks for, and is never empty. */
  ghost predicate Faithful(batch: Batch, window: seq<Event>, source: Kind, settings: Settings) {
    && !source.Missing?
    && batch.files == (if source.Directory? then ChangedIn(window, settings) else [settings.path])
    && batch.deleted == DeletedIn(window, settings)
    && (ChangedIn(window, settings) != [] || DeletedIn(window, settings) != [])
    && (batch.files != [] || batch.deleted != [])
  }

  ghost predicate Conserved(run: Run, settings: Settings) {
    && |run.batches| == |run.windows| == |run.times| == |run.sources|
    && (forall k :: 0 <= k < |run.batches| ==> Faithful(run.batches[k], run.windows[k], run.sources[k], settings))
    && Reflects(run.state, run.open, settings)
  }

  lemma ExtendConserves(run: Run, step: Step, settings: Settings)
    requires Conserved(run, settings)
    ensures Conserved(Extend(run, step, settings), settings)
    ensures Joined(Extend(run, step, settings).windows) + Extend(run, step, settings).open
         == Joined(run.windows) + run.open + (if step.Notice? && !run.state.finished then [step.event] else [])
  {
    var next := Extend(run, step, settings);
    if After(run.state, step, settings).1.Some? {
      assert next.windows[..|next.windows| - 1] == run.windows;
    } else if step.Notice? && !run.state.finished {
      EventReflected(run.state, run.open, step.event, settings);
      assert Joined(run.windows) + (run.open + [step.event]) == Joined(run.windows) + run.open + [step.event];
    }
  }

  /** CONSERVATION, for every interleaving of events, interrupts and ticks. The events seen fall, in
      order, into one window per batch plus the open window; each batch carries exactly what its window
      asks for and is not empty; what is pending is what the open window asks for. */
  lemma {:induction false} WatchConserves(steps: seq<Step>, settings: Settings)
    ensures var run := Execute(steps, settings);
            Conserved(run, settings) && Joined(run.windows) + run.open == Seen(steps, settings)
  {
    if steps != [] {
      WatchConserves(steps[..|steps| - 1], settings);
      ExtendConserves(Execute(steps[..|steps| - 1], settings), steps[|steps| - 1], settings);
    }
  }

  /** Some event of the window removed the path, and no pattern ignores it. */
  ghost predicate Removed(window: seq<Event>, p: string, settings: Settings) {
    exists e :: e in window && Gone(e) && !Matched(e.name, settings) && RelativePath(e.name, settings) == p
  }

  /** Ignored paths are never handed out, as changes or as deletions, for a directory source. */
  lemma IgnoredNeverDelivered(steps: seq<Step>, settings: Settings, k: nat, p: string)
    requires k < |Execute(steps, settings).batches|
    ensures var run := Execute(steps, settings);
            |run.sources| == |run.batches| == |run.windows| &&
            (run.sources[k].Directory? && p in run.batches[k].files ==> !Matched(p, settings)) &&
            (p in run.batches[k].deleted ==> Removed(run.windows[k], p, settings))
  {
    WatchConserves(steps, settings);
    var run := Execute(steps, settings);
    var window := run.windows[k];
    assert Faithful(run.batches[k], window, run.sources[k], settings);
    ChangedInIff(window, settings, p);
    if p in DeletedIn(window, settings) {
      DeletedCameFrom(window, settings, p);
    }
  }

  lemma {:induction false} DeletedCameFrom(window: seq<Event>, settings: Settings, p: string)
    requires p in DeletedIn(window, settings)
    ensures Removed(window, p, settings)
  {
    var front, last := window[..|window| - 1], window[|window| - 1];
    if p in DeletedIn(front, settings) {
      DeletedCameFrom(front, settings, p);
    } else {
      assert last in window;
    }
  }

  // ------------------------------------------------------------ debouncing

  /** Steps happen in time order. */
  ghost predicate InOrder(steps: seq<Step>) {
    forall i, j :: 0 <= i < j < |steps| && !steps[i].Interrupt? && !steps[j].Interrupt? ==>
      StepTime(steps[i]) <= StepTime(steps[j])
  }

  function StepTime(step: Step): int {
    match step case Notice(e) => e.now case Tick(now, _) => now case Interrupt => 0
  }

  /** Pending work means dirty, and the open events are no later than the last change. */
  ghost predicate Tracked(run: Run) {
    && (Pending(run.state) ==> run.state.dirty)
    && (forall e :: e in run.open ==> e.now <= run.state.lastChange)
  }

  /** Every event of a delivered window is more than the delay old when it is delivered. */
  ghost predicate Debounced(run: Run, settings: Settings) {
    && |run.times| == |run.windows|
    && forall k, e :: 0 <= k < |run.windows| && e in run.windows[k] ==> e.now + settings.delay < run.times[k]
  }

  lemma {:induction false} LastChangeInPast(steps: seq<Step>, settings: Settings, now: int)
    requires forall i :: 0 <= i < |steps| && steps[i].Notice? ==> steps[i].event.now <= now
    ensures Seen(steps, settings) == [] || Execute(steps, settings).state.lastChange <= now
    ensures Seen(steps, settings) == [] ==> Execute(steps, settings).open == []
  {
    if steps != [] {
      LastChangeInPast(steps[..|steps| - 1], settings, now);
    }
  }

  /** DEBOUNCE, for every run in time order: nothing is delivered until all of it is older than the
      delay, and pending work is never forgotten. */
  lemma {:induction false} WatchDebounces(steps: seq<Step>, settings: Settings)
    requires InOrder(steps)
    ensures Tracked(Execute(steps, settings)) && Debounced(Execute(steps, settings), settings)
  {
    if steps != [] {
      var front, last := steps[..|steps| - 1], steps[|steps| - 1];
      WatchDebounces(front, settings);
      var run := Execute(front, settings);
      if last.Notice? {
        LastChangeInPast(front, settings, last.event.now);
        forall e | e in run.open ensures e.now <= last.event.now {
        }
      }
    }
  }

  /** A watch that has pending work and is left alone. */
  ghost predicate Waiting(s: State, first: int, source: Kind) {
    Pending(s) && s.dirty && !s.watchError && !s.finished && !source.Missing? && s.lastChange <= first
  }

  /** The round at which a tick that repeats every `delay` from `first` on delivers, counted from 0. */
  function DeliveryRound(s: State, first: int, settings: Settings): nat {
    if first > s.lastChange + settings.delay then 0 else if first > s.lastChange then 1 else 2
  }

  /** The states of a watch that only ticks. */
  function TickTo(s: State, first: int, rounds: nat, source: Kind, settings: Settings): State {
    if rounds == 0 then s
    else
      var before := TickTo(s, first, rounds - 1, source, settings);
      After(before, Tick(first + (rounds - 1) * settings.delay, source), settings).0
  }

  /** LIVENESS. Once events stop, pending work is delivered at the first tick if it is old enough by
      then, else at the second if that first tick came strictly after the last event, else at the third;
      and not before. */
  lemma {:induction false} DeliversAtRound(s: State, first: int, source: Kind, settings: Settings, k: nat)
    requires Waiting(s, first, source) && settings.delay > 0 && k <= 2
    requires k <= DeliveryRound(s, first, settings)
    ensures TickTo(s, first, k, source, settings) == s
    ensures After(s, Tick(first + k * settings.delay, source), settings).1.Some?
            <==> k == DeliveryRound(s, first, settings)
  {
    if k > 0 {
      DeliversAtRound(s, first, source, settings, k - 1);
    }
  }

  /** In particular two ticks suffice exactly if the first one is strictly later than the last event. */
  lemma TwoTicksSufficeIff(s: State, first: int, source: Kind, settings: Settings)
    requires Waiting(s, first, source) && settings.delay > 0
    ensures !Pending(TickTo(s, first, 2, source, settings)) <==> first > s.lastChange
    ensures !Pending(TickTo(s, first, 3, source, settings))
  {
    var d := settings.delay;
    var one := After(s, Tick(first + 0 * d, source), settings).0;
    assert TickTo(s, first, 1, source, settings) == one;
    var two := After(one, Tick(first + 1 * d, source), settings).0;
    assert TickTo(s, first, 2, source, settings) == two;
    var three := After(two, Tick(first + 2 * d, source), settings).0;
    assert TickTo(s, first, 3, source, settings) == three;
  }

  /** Two ticks may be too few: a run in which the first tick comes at the time of the last event. */
  lemma TwoTicksTooFew(settings: Settings)
    requires settings.delay == 1 && settings.glob("f") == Some(false)
    ensures var write := Event({WRITE}, "f", File, false, 2);
            var steps := [Notice(write), Tick(2, Directory), Tick(3, Directory)];
            Execute(steps, settings).batches == [] &&
            Execute(steps + [Tick(4, Directory)], settings).batches == [Batch(["f"], [])]
  {
    var write := Event({WRITE}, "f", File, false, 2);
    var one, two := [Notice(write)], [Notice(write), Tick(2, Directory)];
    var three := two + [Tick(3, Directory)];
    var four := three + [Tick(4, Directory)];
    assert one[..0] == [] && two[..1] == one && three[..2] == two && four[..3] == three;
    var pending := OnEvent(START, write, settings);
    assert pending == State(true, 2, false, false, ["f"], []);
    var run := Run(pending, [], [], [], [], [write]);
    assert Execute([], settings) == Run(START, [], [], [], [], []);
    assert Execute(one, settings) == Extend(Execute([], settings), Notice(write), settings) == run;
    assert Execute(two, settings) == Extend(run, Tick(2, Directory), settings) == run;
    assert Execute(three, settings) == Extend(run, Tick(3, Directory), settings) == run;
    assert Execute(four, settings) == Extend(run, Tick(4, Directory), settings);
    assert three == [Notice(write), Tick(2, Directory), Tick(3, Directory)];
  }
}
