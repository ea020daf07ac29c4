/**
 Stream demand: subscriptions of the media source (src/media/media_source.cpp)
 switch the encoder and the detector of the device pipeline on and off
 (device_adapter/src/hisilicon_pipeline.cpp).

 Several threads run at once. Each region the code holds a lock for is one step;
 a run is any interleaving of steps. `busy` is the thread inside `subscribe` or
 `unsubscribe`, which hold the demand lock from end to end.
 */
module Demand {
  import opened Base

  const MAIN := 0
  const SUB := 1
  const AI := 2

  datatype Busy =
    | Nobody
    | AddingFirst(stream: int)     // about to ask for the stream
    | Adding(stream: int)          // about to enter the subscriber
    | RemovedLast(stream: int)     // about to release the stream

  /** The media source. `demanded` logs a stream's granted demand-on calls and its demand-off calls. */
  datatype Source = Source(
    subscribers: map<int, set<nat>>, nextId: nat, busy: Busy, demanded: map<int, seq<bool>>)

  /** `SubOff` remembers how many demand-on calls were granted by then and whether the encoder refused to stop. */
  datatype SubWorker = SubTop | SubIdle(gen: nat, calls: nat) | SubOff(grants: nat, leftOn: bool) | SubExited

  /** The encoder's side. `calls` counts the demand changes it saw, `grants` the demand-on calls it granted. */
  datatype SubSide = SubSide(required: bool, gen: nat, calls: nat, grants: nat, encoderOn: bool, worker: SubWorker)

  datatype AiWorker =
    | AiTop
    | AiChecking(gen: nat, calls: nat)
    | AiLoading(gen: nat, calls: nat)
    | AiLoaded(gen: nat, calls: nat, det: nat)
    | AiReporting(gen: nat, ok: bool)
    | AiIdle(gen: nat)
    | AiExited

  /** A detector put in place: generation and demand calls when its load began, and now. */
  datatype Install = Install(det: nat, genBefore: nat, genNow: nat, callsBefore: nat, callsNow: nat)

  /** The detector's side: the installed one, and all that were ever started or stopped. */
  datatype AiSide = AiSide(
    required: bool, gen: nat, calls: nat, worker: AiWorker,
    detector: Option<nat>, started: set<nat>, stopped: set<nat>, installs: seq<Install>)

  datatype Phase = Running | Stopping | Stopped

  datatype Sys = Sys(subEnabled: bool, aiEnabled: bool, phase: Phase, src: Source, sub: SubSide, ai: AiSide)

  /** Right after `start`, with streams registered and nobody subscribed yet. */
  function Init(subEnabled: bool, aiEnabled: bool, subAtBoot: bool, aiAtBoot: bool): Sys {
    var streams := {MAIN} + (if subEnabled then {SUB} else {}) + (if aiEnabled then {AI} else {});
    Sys(subEnabled, aiEnabled, Running,
        Source(map k | k in streams :: {}, 1, Nobody, map k | k in streams :: []),
        SubSide(subEnabled && subAtBoot, 1, 0, 0, subEnabled && subAtBoot, SubTop),
        AiSide(aiEnabled && aiAtBoot, 1, 0, if aiEnabled then AiTop else AiExited, None, {}, {}, []))
  }

  // ------------------------------------------------------- the pipeline's regions

  /** The sub-stream part of `set_stream_active`; `encoderOk` answers when the encoder must be started. */
  function SubSetActive(sub: SubSide, active: bool, encoderOk: bool): (SubSide, bool) {
    var t := sub.(required := active, gen := sub.gen + 1, calls := sub.calls + 1);
    if !active then (t, true)
    else if sub.encoderOn || encoderOk then (t.(encoderOn := true, grants := t.grants + 1), true)
    else (t.(required := false, gen := t.gen + 1), false)
  }

  function AiSetActive(ai: AiSide, active: bool): AiSide {
    ai.(required := active, gen := ai.gen + 1, calls := ai.calls + 1)
  }

  /** `set_stream_active` */
  function SetActive(s: Sys, stream: int, active: bool, encoderOk: bool): (Sys, bool) {
    if stream == MAIN then (s, true)
    else if stream == AI then
      if !s.aiEnabled || !s.phase.Running? then (s, false) else (s.(ai := AiSetActive(s.ai, active)), true)
    else if stream != SUB || !s.subEnabled || !s.phase.Running? then (s, false)
    else
      var (sub, ok) := SubSetActive(s.sub, active, encoderOk);
      (s.(sub := sub), ok)
  }

  /** `stream_lifecycle_worker`, one locked region at a time. */
  datatype SubEvent =
    | SubWait                      // the idle timer starts
    | SubChanged                   // the timer is cut short
    | SubTimeout(encoderOk: bool)  // the timer ran out; did the encoder stop?
    | SubWanted                    // demand came back after the stop
    | SubExit

  predicate SubWoken(sub: SubSide, running: bool, gen: nat) { !running || sub.required || sub.gen != gen }

  predicate SubPossible(sub: SubSide, running: bool, e: SubEvent) {
    match e
    case SubWait => sub.worker.SubTop? && running && !sub.required
    case SubChanged => sub.worker.SubIdle? && SubWoken(sub, running, sub.worker.gen)
    case SubTimeout(_) => sub.worker.SubIdle? && !SubWoken(sub, running, sub.worker.gen)
    case SubWanted => sub.worker.SubOff? && (!running || sub.required)
    case SubExit => sub.worker.SubTop? && !running
  }

  function SubStep(sub: SubSide, e: SubEvent): SubSide {
    match e
    case SubWait => sub.(worker := SubIdle(sub.gen, sub.calls))
    case SubChanged => sub.(worker := SubTop)
    case SubTimeout(encoderOk) =>
      var leftOn := sub.encoderOn && !encoderOk;
      sub.(encoderOn := leftOn, worker := SubOff(sub.grants, leftOn))
    case SubWanted => sub.(worker := SubTop)
    case SubExit => sub.(worker := SubExited)
  }

  /** `ai_lifecycle_worker` and `start_yolov8_async`. */
  datatype AiEvent =
    | AiPick
    | AiCheck
    | AiLoad(started: Option<nat>) // no lock is held while the model loads
    | AiFinish
    | AiReport
    | AiWait
    | AiChanged
    | AiTimeout
    | AiExit

  predicate AiWoken(ai: AiSide, running: bool, gen: nat) { !running || ai.required || ai.gen != gen }

  predicate AiOutdated(ai: AiSide, running: bool, gen: nat) {
    !running || !ai.required || ai.gen != gen || ai.detector.Some?
  }

  /** A detector that starts is a new object. */
  predicate AiPossible(ai: AiSide, running: bool, e: AiEvent) {
    match e
    case AiPick => ai.worker.AiTop? && running && ai.required && ai.detector.None?
    case AiCheck => ai.worker.AiChecking?
    case AiLoad(started) => ai.worker.AiLoading? && (started.Some? ==> started.value !in ai.started)
    case AiFinish => ai.worker.AiLoaded?
    case AiReport => ai.worker.AiReporting?
    case AiWait => ai.worker.AiTop? && running && !ai.required && ai.detector.Some?
    case AiChanged => ai.worker.AiIdle? && AiWoken(ai, running, ai.worker.gen)
    case AiTimeout => ai.worker.AiIdle? && !AiWoken(ai, running, ai.worker.gen)
    case AiExit => ai.worker.AiTop? && !running
  }

  /** `stop_yolov8_locked` */
  function StopDetector(ai: AiSide): AiSide {
    if ai.detector.None? then ai else ai.(detector := None, stopped := ai.stopped + {ai.detector.value})
  }

  function AiStep(ai: AiSide, running: bool, e: AiEvent): AiSide
    requires AiPossible(ai, running, e)
  {
    var w := ai.worker;
    match e
    case AiPick => ai.(worker := AiChecking(ai.gen, ai.calls))
    case AiCheck =>
      ai.(worker := if AiOutdated(ai, running, w.gen) then AiReporting(w.gen, false) else AiLoading(w.gen, w.calls))
    case AiLoad(None) => ai.(worker := AiReporting(w.gen, false))
    case AiLoad(Some(d)) => ai.(worker := AiLoaded(w.gen, w.calls, d), started := ai.started + {d})
    case AiFinish =>
      if AiOutdated(ai, running, w.gen)
      then ai.(stopped := ai.stopped + {w.det}, worker := AiReporting(w.gen, false))
      else ai.(detector := Some(w.det), worker := AiReporting(w.gen, true),
               installs := ai.installs + [Install(w.det, w.gen, ai.gen, w.calls, ai.calls)])
    case AiReport =>
      if !w.ok && ai.required && ai.gen == w.gen && ai.detector.None?
      then ai.(required := false, gen := ai.gen + 1, worker := AiTop)
      else ai.(worker := AiTop)
    case AiWait => ai.(worker := AiIdle(ai.gen))
    case AiChanged => ai.(worker := AiTop)
    case AiTimeout => StopDetector(ai).(worker := AiTop)
    case AiExit => ai.(worker := AiExited)
  }

  // ------------------------------------------------------------ the whole system

  datatype Event =
    | SubscribeBegin(stream: int)
    | DemandOn(encoderOk: bool)
    | SubscribeEnd
    | Unsubscribe(stream: int, id: nat)
    | DemandOff
    | SubEv(sub: SubEvent)
    | AiEv(ai: AiEvent)
    | StopBegin
    | StopEnd

  predicate Possible(s: Sys, e: Event) {
    match e
    case SubscribeBegin(_) => s.src.busy.Nobody?
    case DemandOn(_) => s.src.busy.AddingFirst?
    case SubscribeEnd => s.src.busy.Adding?
    case Unsubscribe(_, _) => s.src.busy.Nobody?
    case DemandOff => s.src.busy.RemovedLast?
    case SubEv(e) => SubPossible(s.sub, s.phase.Running?, e)
    case AiEv(e) => AiPossible(s.ai, s.phase.Running?, e)
    case StopBegin => s.phase.Running?
    case StopEnd => s.phase.Stopping? && s.sub.worker.SubExited? && s.ai.worker.AiExited?
  }

  function Logged(src: Source, stream: int, active: bool): Source {
    src.(demanded := src.demanded[stream := (if stream in src.demanded then src.demanded[stream] else []) + [active]])
  }

  function BeginSubscribe(src: Source, stream: int): Source {
    if stream !in src.subscribers then src
    else src.(busy := if src.subscribers[stream] == {} then AddingFirst(stream) else Adding(stream))
  }

  function EndSubscribe(src: Source): Source
    requires src.busy.Adding?
  {
    var stream := src.busy.stream;
    if stream !in src.subscribers then src.(busy := Nobody)
    else src.(subscribers := src.subscribers[stream := src.subscribers[stream] + {src.nextId}],
              nextId := src.nextId + 1, busy := Nobody)
  }

  function Erase(src: Source, stream: int, id: nat): Source {
    if stream !in src.subscribers || id !in src.subscribers[stream] then src
    else
      var left := src.subscribers[stream] - {id};
      src.(subscribers := src.subscribers[stream := left], busy := if left == {} then RemovedLast(stream) else Nobody)
  }

  function Step(s: Sys, e: Event): Sys
    requires Possible(s, e)
  {
    match e
    case SubscribeBegin(stream) => s.(src := BeginSubscribe(s.src, stream))
    case DemandOn(encoderOk) =>
      var stream := s.src.busy.stream;
      var (t, ok) := SetActive(s, stream, true, encoderOk);
      t.(src := if ok then Logged(s.src, stream, true).(busy := Adding(stream)) else s.src.(busy := Nobody))
    case SubscribeEnd => s.(src := EndSubscribe(s.src))
    case Unsubscribe(stream, id) => s.(src := Erase(s.src, stream, id))
    case DemandOff =>
      SetActive(s, s.src.busy.stream, false, true).0.(src := Logged(s.src, s.src.busy.stream, false).(busy := Nobody))
    case SubEv(e) => s.(sub := SubStep(s.sub, e))
    case AiEv(e) => s.(ai := AiStep(s.ai, s.phase.Running?, e))
    case StopBegin =>
      s.(phase := Stopping, sub := s.sub.(required := false, gen := s.sub.gen + 1),
         ai := s.ai.(required := false, gen := s.ai.gen + 1))
    case StopEnd => s.(phase := Stopped, sub := s.sub.(encoderOn := false), ai := StopDetector(s.ai))
  }

  ghost predicate Run(s: Sys, events: seq<Event>, s': Sys)
    decreases |events|
  {
    if events == [] then s' == s
    else Possible(s, events[0]) && Run(Step(s, events[0]), events[1..], s')
  }

  // ------------------------------------------------------------- the sub-stream

  /** While the pipeline runs: subscribers imply demand, demand implies a running encoder. */
  ghost predicate EncoderFollowsDemand(s: Sys) {
    s.phase.Running? ==>
      && (SUB in s.src.subscribers && s.src.subscribers[SUB] != {} ==> s.sub.required)
      && (s.sub.required ==> s.sub.encoderOn)
  }

  ghost predicate BusyOk(src: Source) {
    match src.busy
    case Nobody => true
    case Adding(k) => k in src.subscribers
    case _ => src.busy.stream in src.subscribers && src.subscribers[src.busy.stream] == {}
  }

  ghost predicate SubOk(s: Sys) {
    && EncoderFollowsDemand(s)
    && (s.phase.Running? && s.src.busy == Adding(SUB) ==> s.sub.required)
    && (s.sub.worker.SubExited? ==> !s.phase.Running?)
    && (s.sub.worker.SubOff? ==>
          && s.sub.grants >= s.sub.worker.grants
          && (s.sub.encoderOn <==> s.sub.worker.leftOn || s.sub.grants > s.sub.worker.grants))
    && (s.sub.worker.SubIdle? ==>
          s.sub.worker.gen <= s.sub.gen && (s.sub.gen == s.sub.worker.gen ==> s.sub.calls == s.sub.worker.calls))
  }

  lemma StepKeepsBusy(s: Sys, e: Event)
    requires BusyOk(s.src) && Possible(s, e)
    ensures BusyOk(Step(s, e).src)
  {
  }

  lemma StepKeepsSub(s: Sys, e: Event)
    requires SubOk(s) && BusyOk(s.src) && Possible(s, e)
    ensures SubOk(Step(s, e))
  {
  }

  /** The encoder is only switched off after a wait in which nobody asked for it, or at shutdown. */
  lemma EncoderStopsOnlyWhenIdle(s: Sys, e: Event)
    requires Reachable(s) && Possible(s, e) && s.sub.encoderOn && !Step(s, e).sub.encoderOn
    ensures e.StopEnd? ||
            (!s.sub.required && s.sub.worker.SubIdle? && s.sub.calls == s.sub.worker.calls)
  {
    ReachableIsOk(s);
  }

  // ------------------------------------------------------ demand calls alternate

  /** On, off, on, off, ... */
  ghost predicate Alternates(calls: seq<bool>) {
    forall i :: 0 <= i < |calls| ==> (calls[i] <==> i % 2 == 0)
  }

  /** The stream is held: it has subscribers, or one is arriving, or the last one just left. */
  ghost predicate Held(src: Source, stream: int)
    requires stream in src.subscribers
  {
    src.subscribers[stream] != {} || src.busy == Adding(stream) || src.busy == RemovedLast(stream)
  }

  ghost predicate CallsOk(src: Source) {
    && src.demanded.Keys == src.subscribers.Keys
    && forall k :: k in src.subscribers ==>
         Alternates(src.demanded[k]) && (|src.demanded[k]| % 2 == 1 <==> Held(src, k))
  }

  lemma StepKeepsCalls(s: Sys, e: Event)
    requires BusyOk(s.src) && CallsOk(s.src) && Possible(s, e)
    ensures CallsOk(Step(s, e).src)
  {
  }

  // --------------------------------------------------------------- the detector

  ghost function Installed(ai: AiSide): set<nat> { if ai.detector.Some? then {ai.detector.value} else {} }

  ghost function InFlight(ai: AiSide): set<nat> { if ai.worker.AiLoaded? then {ai.worker.det} else {} }

  ghost predicate LoadOk(ai: AiSide) {
    var w := ai.worker;
    (w.AiChecking? || w.AiLoading? || w.AiLoaded?) ==>
      w.gen <= ai.gen && (ai.gen == w.gen ==> ai.calls == w.calls)
  }

  ghost predicate InstallOk(i: Install) { i.genNow == i.genBefore && i.callsNow == i.callsBefore }

  /** A started detector is the installed one, the one being loaded, or stopped. */
  ghost predicate DetectorOk(ai: AiSide) {
    && ai.started - ai.stopped == Installed(ai) + InFlight(ai)
    && Installed(ai) !! InFlight(ai)
    && ai.stopped <= ai.started
    && LoadOk(ai)
    && forall i :: 0 <= i < |ai.installs| ==> InstallOk(ai.installs[i])
  }

  lemma AiStepKeepsDetector(ai: AiSide, running: bool, e: AiEvent)
    requires DetectorOk(ai) && AiPossible(ai, running, e)
    ensures DetectorOk(AiStep(ai, running, e))
  {
  }

  ghost predicate ShutdownOk(s: Sys) {
    s.phase.Stopped? ==> s.ai.detector.None? && s.ai.worker.AiExited? && s.sub.worker.SubExited?
  }

  lemma StepKeepsDetector(s: Sys, e: Event)
    requires DetectorOk(s.ai) && ShutdownOk(s) && Possible(s, e)
    ensures DetectorOk(Step(s, e).ai) && ShutdownOk(Step(s, e))
  {
    hide AiStep;
    if e.AiEv? { AiStepKeepsDetector(s.ai, s.phase.Running?, e.ai); }
  }

  // ---------------------------------------------------------------- whole runs

  ghost predicate Ok(s: Sys) {
    SubOk(s) && BusyOk(s.src) && CallsOk(s.src) && DetectorOk(s.ai) && ShutdownOk(s)
  }

  lemma {:induction false} RunKeepsOk(s: Sys, events: seq<Event>, s': Sys)
    requires Ok(s) && Run(s, events, s')
    ensures Ok(s')
    decreases |events|
  {
    hide Step, Possible, SubOk, BusyOk, CallsOk, DetectorOk, ShutdownOk;
    if events != [] {
      StepKeepsSub(s, events[0]);
      StepKeepsBusy(s, events[0]);
      StepKeepsCalls(s, events[0]);
      StepKeepsDetector(s, events[0]);
      RunKeepsOk(Step(s, events[0]), events[1..], s');
    }
  }

  /** `s` is reached by some interleaving of the threads. */
  ghost predicate Reachable(s: Sys) {
    exists subOn, aiOn, subAtBoot, aiAtBoot, events :: Run(Init(subOn, aiOn, subAtBoot, aiAtBoot), events, s)
  }

  lemma InitIsOk(subOn: bool, aiOn: bool, subAtBoot: bool, aiAtBoot: bool)
    ensures Ok(Init(subOn, aiOn, subAtBoot, aiAtBoot))
  {
  }

  lemma ReachableIsOk(s: Sys)
    requires Reachable(s)
    ensures Ok(s)
  {
    hide Run, Init, Ok;
    var subOn, aiOn, subAtBoot, aiAtBoot, events :| Run(Init(subOn, aiOn, subAtBoot, aiAtBoot), events, s);
    InitIsOk(subOn, aiOn, subAtBoot, aiAtBoot);
    RunKeepsOk(Init(subOn, aiOn, subAtBoot, aiAtBoot), events, s);
  }

  /** A subscribed sub-stream is encoded, in every interleaving. */
  lemma SubscribersAreServed(s: Sys)
    requires Reachable(s)
    ensures EncoderFollowsDemand(s)
  {
    ReachableIsOk(s);
  }

  /** Per stream, granted demand-on calls and demand-off calls alternate, starting with on. */
  lemma DemandCallsAlternate(s: Sys, stream: int)
    requires Reachable(s) && stream in s.src.demanded
    ensures Alternates(s.src.demanded[stream])
  {
    ReachableIsOk(s);
  }

  /**
   Every started detector is the one installed, the one whose load is ending, or
   stopped; installs only happen with the demand they were loaded for; and after
   the shutdown none is left.
   */
  lemma DetectorsAreAccountedFor(s: Sys, d: nat)
    requires Reachable(s) && d in s.ai.started
    ensures d in s.ai.stopped || s.ai.detector == Some(d) || (s.ai.worker.AiLoaded? && s.ai.worker.det == d)
    ensures d in s.ai.stopped ==> s.ai.detector != Some(d)
    ensures s.phase.Stopped? ==> d in s.ai.stopped
    ensures forall i :: 0 <= i < |s.ai.installs| ==> InstallOk(s.ai.installs[i])
  {
    ReachableIsOk(s);
    assert d in s.ai.started - s.ai.stopped <==> d !in s.ai.stopped;
  }

  /** The worker alone, with no demand call in between. */
  ghost predicate WorkerRun(sub: SubSide, events: seq<SubEvent>, sub': SubSide)
    decreases |events|
  {
    if events == [] then sub' == sub
    else SubPossible(sub, true, events[0]) && WorkerRun(SubStep(sub, events[0]), events[1..], sub')
  }

  /** The worker has nothing left to do until demand comes. */
  ghost predicate AtRest(sub: SubSide) { forall e :: !SubPossible(sub, true, e) }

  /** The worker gets no further than three steps without a demand call. */
  lemma {:induction false} WorkerComesToRest(sub: SubSide, events: seq<SubEvent>, sub': SubSide)
    requires !sub.required && !sub.worker.SubExited? && WorkerRun(sub, events, sub')
    ensures |events| <= 3
    ensures AtRest(sub') <==> sub'.worker.SubOff?
    ensures !sub'.required && !sub'.worker.SubExited? && sub'.grants == sub.grants
    ensures !sub.worker.SubOff? && sub'.worker.SubOff? ==>
              sub'.worker.leftOn == sub'.encoderOn && (sub'.encoderOn ==> sub.encoderOn)
    decreases |events|
  {
    Rest(sub);
    if events != [] {
      WorkerComesToRest(SubStep(sub, events[0]), events[1..], sub');
      StepsLeft(sub, events, sub');
    }
  }

  lemma Rest(sub: SubSide)
    requires !sub.required && !sub.worker.SubExited?
    ensures AtRest(sub) <==> sub.worker.SubOff?
  {
    if sub.worker.SubTop? { assert SubPossible(sub, true, SubWait); }
    if sub.worker.SubIdle? { assert SubPossible(sub, true, SubChanged) || SubPossible(sub, true, SubTimeout(true)); }
  }

  lemma StepsLeft(sub: SubSide, events: seq<SubEvent>, sub': SubSide)
    requires !sub.required && !sub.worker.SubExited? && WorkerRun(sub, events, sub')
    ensures |events| <= match sub.worker
                        case SubOff(_, _) => 0
                        case SubIdle(gen, _) => if gen == sub.gen then 1 else 3
                        case _ => 2
    decreases |events|
  {
    if events != [] { StepsLeft(SubStep(sub, events[0]), events[1..], sub'); }
  }

  /**
   In every interleaving, what becomes of an encoder that nobody wants any more: once
   the worker has come to rest it is still on exactly if the encoder refused to stop,
   or a demand-on call was granted after the worker had switched it off, came and went.
   */
  lemma UnwantedEncoderStaysOnIff(s: Sys, events: seq<SubEvent>, sub': SubSide)
    requires Reachable(s) && s.phase.Running? && !s.sub.required
    requires WorkerRun(s.sub, events, sub') && AtRest(sub')
    ensures sub'.worker.SubOff?
    ensures sub'.encoderOn <==> sub'.worker.leftOn || sub'.grants > sub'.worker.grants
    ensures !s.sub.worker.SubOff? ==> sub'.grants == sub'.worker.grants
  {
    ReachableIsOk(s);
    WorkerComesToRest(s.sub, events, sub');
    WorkerKeepsGrants(s.sub, events, sub');
  }

  lemma {:induction false} WorkerKeepsGrants(sub: SubSide, events: seq<SubEvent>, sub': SubSide)
    requires !sub.required && !sub.worker.SubExited? && WorkerRun(sub, events, sub')
    ensures sub'.worker.SubOff? && !sub.worker.SubOff? ==> sub'.worker.grants == sub.grants == sub'.grants
    ensures sub.worker.SubOff? ==> sub' == sub
    decreases |events|
  {
    Rest(sub);
    if events != [] {
      WorkerKeepsGrants(SubStep(sub, events[0]), events[1..], sub');
    }
  }

  /** Both happen: a second short visit while the worker waits, and an encoder that refuses to stop. */
  lemma EncoderCanStayOn()
    ensures exists s: Sys :: Reachable(s) && LeftOn(s) && s.sub.grants > s.sub.worker.grants && !s.sub.worker.leftOn
    ensures exists s: Sys :: Reachable(s) && LeftOn(s) && s.sub.grants == s.sub.worker.grants && s.sub.worker.leftOn
  {
    hide Run;
    var s0 := Init(true, false, false, false);
    var s1 := Visit(s0, 1);
    VisitRuns(s0, 1);
    var s2, refused := Idle(s1, true), Idle(s1, false);
    IdleRuns(s1, true);
    IdleRuns(s1, false);
    RunThenRun(s0, VisitEvents(1), s1, IdleEvents(true), s2);
    RunThenRun(s0, VisitEvents(1), s1, IdleEvents(false), refused);
    var s3 := Visit(s2, 2);
    VisitRuns(s2, 2);
    RunThenRun(s0, VisitEvents(1) + IdleEvents(true), s2, VisitEvents(2), s3);
    assert Reachable(s3) && Reachable(refused);
  }

  /** The encoder runs, nobody is subscribed, and the worker is in its second wait. */
  ghost predicate LeftOn(s: Sys) {
    && s.phase.Running? && s.sub.encoderOn && !s.sub.required && s.sub.worker.SubOff?
    && SUB in s.src.subscribers && s.src.subscribers[SUB] == {}
  }

  function IdleEvents(stops: bool): seq<Event> { [SubEv(SubWait)] + [SubEv(SubTimeout(stops))] }

  /** The worker waits for the idle time and asks the encoder to stop. */
  ghost function Idle(s: Sys, stops: bool): (r: Sys)
    requires s.phase.Running? && s.sub.worker.SubTop? && !s.sub.required
    ensures r.src == s.src && r.subEnabled == s.subEnabled && r.phase == s.phase
    ensures var on := s.sub.encoderOn && !stops;
            r.sub == s.sub.(encoderOn := on, worker := SubOff(s.sub.grants, on))
  {
    Step(Step(s, SubEv(SubWait)), SubEv(SubTimeout(stops)))
  }

  lemma IdleRuns(s: Sys, stops: bool)
    requires s.phase.Running? && s.sub.worker.SubTop? && !s.sub.required
    ensures Run(s, IdleEvents(stops), Idle(s, stops))
  {
    var t := Step(s, SubEv(SubWait));
    OneStep(t, SubEv(SubTimeout(stops)), [], Idle(s, stops));
    OneStep(s, SubEv(SubWait), [SubEv(SubTimeout(stops))], Idle(s, stops));
  }

  function VisitEvents(id: nat): seq<Event> {
    [SubscribeBegin(SUB), DemandOn(true), SubscribeEnd, Unsubscribe(SUB, id), DemandOff]
  }

  /** A lone subscriber of the sub-stream comes and goes. */
  ghost function Visit(s: Sys, id: nat): (r: Sys)
    requires s.subEnabled && s.phase.Running? && s.src.busy.Nobody?
    requires SUB in s.src.subscribers && s.src.subscribers[SUB] == {} && s.src.nextId == id
    ensures r.src.subscribers == s.src.subscribers && r.src.busy.Nobody? && r.src.nextId == id + 1
    ensures r.sub == s.sub.(required := false, gen := s.sub.gen + 2, calls := s.sub.calls + 2,
                            grants := s.sub.grants + 1, encoderOn := true)
    ensures r.phase == s.phase && r.subEnabled && r.ai == s.ai
  {
    var t := Step(Step(Step(s, SubscribeBegin(SUB)), DemandOn(true)), SubscribeEnd);
    assert t.src.subscribers[SUB] - {id} == {};
    Step(Step(t, Unsubscribe(SUB, id)), DemandOff)
  }

  lemma VisitRuns(s: Sys, id: nat)
    requires s.subEnabled && s.phase.Running? && s.src.busy.Nobody?
    requires SUB in s.src.subscribers && s.src.subscribers[SUB] == {} && s.src.nextId == id
    ensures Run(s, VisitEvents(id), Visit(s, id))
  {
    var t1 := Step(s, SubscribeBegin(SUB));
    var t2 := Step(t1, DemandOn(true));
    var t3 := Step(t2, SubscribeEnd);
    var t4 := Step(t3, Unsubscribe(SUB, id));
    var t5 := Step(t4, DemandOff);
    OneStep(t2, SubscribeEnd, [Unsubscribe(SUB, id), DemandOff], t5);
  }

  lemma OneStep(s: Sys, e: Event, rest: seq<Event>, s': Sys)
    requires Possible(s, e) && Run(Step(s, e), rest, s')
    ensures Run(s, [e] + rest, s')
  {
  }

  lemma {:induction false} RunThenRun(s: Sys, first: seq<Event>, t: Sys, second: seq<Event>, u: Sys)
    requires Run(s, first, t) && Run(t, second, u)
    ensures Run(s, first + second, u)
    decreases |first|
  {
    if first == [] {
      assert first + second == second;
    } else {
      RunThenRun(Step(s, first[0]), first[1..], t, second, u);
      assert (first + second)[1..] == first[1..] + second;
    }
  }
}
