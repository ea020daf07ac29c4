/**
 The device pipeline and the media source as objects. Each method is one region
 the code runs under its lock, and is proved to be the step of module `Demand`.
 */
module Pipeline {
  import opened Base
  import opened Demand

  class DevicePipeline {
    const subEnabled: bool
    const aiEnabled: bool
    var phase: Phase
    var subStreamRequired: bool
    var streamGeneration: nat
    var subCalls: nat
    var subGrants: nat
    var encoderOn: bool
    var aiStreamRequired: bool
    var aiGeneration: nat
    var aiCalls: nat
    var yolov8: Option<nat>
    var started: set<nat>
    var stopped: set<nat>
    var installs: seq<Install>

    function Sub(worker: SubWorker): SubSide
      reads this
    {
      SubSide(subStreamRequired, streamGeneration, subCalls, subGrants, encoderOn, worker)
    }

    function Ai(worker: AiWorker): AiSide
      reads this
    {
      AiSide(aiStreamRequired, aiGeneration, aiCalls, worker, yolov8, started, stopped, installs)
    }

    function State(src: Source, sub: SubWorker, ai: AiWorker): Sys
      reads this
    {
      Sys(subEnabled, aiEnabled, phase, src, Sub(sub), Ai(ai))
    }

    /** With the media source and the workers where they are, the whole system is sound. */
    ghost predicate Valid(src: Source, sub: SubWorker, ai: AiWorker)
      reads this
    {
      Ok(State(src, sub, ai))
    }

    constructor (subEnabled: bool, aiEnabled: bool, subAtBoot: bool, aiAtBoot: bool)
      ensures phase.Running? && this.subEnabled == subEnabled && this.aiEnabled == aiEnabled
      ensures Sub(SubTop) == Init(subEnabled, aiEnabled, subAtBoot, aiAtBoot).sub
      ensures Ai(if aiEnabled then AiTop else AiExited) == Init(subEnabled, aiEnabled, subAtBoot, aiAtBoot).ai
    {
      this.subEnabled, this.aiEnabled, phase := subEnabled, aiEnabled, Running;
      subStreamRequired, encoderOn := subEnabled && subAtBoot, subEnabled && subAtBoot;
      aiStreamRequired, yolov8 := aiEnabled && aiAtBoot, None;
      streamGeneration, aiGeneration, subCalls, subGrants, aiCalls := 1, 1, 0, 0, 0;
      started, stopped, installs := {}, {}, [];
    }

    /** A started encoder stays as it is; starting a stopped one may fail. */
    method EnableSubStream(encoderOk: bool) returns (ok: bool)
      modifies this`encoderOn
      ensures ok == (old(encoderOn) || encoderOk) && encoderOn == ok
    {
      if encoderOn {
        return true;
      }
      encoderOn := encoderOk;
      ok := encoderOk;
    }

    method SetStreamActive(stream: int, active: bool, encoderOk: bool) returns (ok: bool)
      modifies this
      ensures forall src, w, v :: (State(src, w, v), ok) == SetActive(old(State(src, w, v)), stream, active, encoderOk)
    {
      if stream == MAIN {
        return true;
      }
      if stream == AI {
        if !aiEnabled || !phase.Running? {
          return false;
        }
        aiStreamRequired, aiGeneration, aiCalls := active, aiGeneration + 1, aiCalls + 1;
        return true;
      }
      if stream != SUB || !subEnabled || !phase.Running? {
        return false;
      }
      subStreamRequired, streamGeneration, subCalls := active, streamGeneration + 1, subCalls + 1;
      if !active {
        return true;
      }
      ok := EnableSubStream(encoderOk);
      if ok {
        subGrants := subGrants + 1;
      } else {
        subStreamRequired, streamGeneration := false, streamGeneration + 1;
      }
    }

    /** The end of the idle timer in `stream_lifecycle_worker`: the worker's next state. */
    method IdleTimerEnds(w: SubWorker, encoderOk: bool) returns (next: SubWorker)
      requires w.SubIdle?
      modifies this`encoderOn
      ensures var e := if SubWoken(old(Sub(w)), phase.Running?, w.gen) then SubChanged else SubTimeout(encoderOk);
              SubPossible(old(Sub(w)), phase.Running?, e) && Sub(next) == SubStep(old(Sub(w)), e)
      ensures forall src, v :: old(Valid(src, w, v)) ==> Valid(src, next, v)
    {
      ghost var e := if SubWoken(Sub(w), phase.Running?, w.gen) then SubChanged else SubTimeout(encoderOk);
      forall src, v | Valid(src, w, v) { Keeps(State(src, w, v), SubEv(e)); }
      hide Ok;
      var changed := !phase.Running? || subStreamRequired || streamGeneration != w.gen;
      if changed {
        return SubTop;
      }
      if encoderOk {
        encoderOn := false;
      }
      next := SubOff(subGrants, encoderOn);
    }

    /** The last region of `start_yolov8_async`. */
    method InstallDetector(w: AiWorker) returns (next: AiWorker)
      requires w.AiLoaded?
      modifies this`yolov8, this`stopped, this`installs
      ensures Ai(next) == AiStep(old(Ai(w)), phase.Running?, AiFinish)
      ensures forall src, v :: old(Valid(src, v, w)) ==> Valid(src, v, next)
    {
      forall src, v | Valid(src, v, w) { Keeps(State(src, v, w), AiEv(AiFinish)); }
      hide Ok;
      if !phase.Running? || !aiStreamRequired || aiGeneration != w.gen || yolov8.Some? {
        stopped := stopped + {w.det};
        return AiReporting(w.gen, false);
      }
      yolov8 := Some(w.det);
      installs := installs + [Install(w.det, w.gen, aiGeneration, w.calls, aiCalls)];
      next := AiReporting(w.gen, true);
    }

    /** The worker takes the lock again: a failed load withdraws the demand it was for. */
    method ReportLoad(w: AiWorker) returns (next: AiWorker)
      requires w.AiReporting?
      modifies this`aiStreamRequired, this`aiGeneration
      ensures Ai(next) == AiStep(old(Ai(w)), phase.Running?, AiReport)
      ensures forall src, v :: old(Valid(src, v, w)) ==> Valid(src, v, next)
    {
      forall src, v | Valid(src, v, w) { Keeps(State(src, v, w), AiEv(AiReport)); }
      hide Ok;
      if !w.ok && aiStreamRequired && aiGeneration == w.gen && yolov8.None? {
        aiStreamRequired, aiGeneration := false, aiGeneration + 1;
      }
      next := AiTop;
    }

    method StopYolov8()
      modifies this`yolov8, this`stopped
      ensures forall w :: Ai(w) == StopDetector(old(Ai(w)))
    {
      if yolov8.Some? {
        stopped := stopped + {yolov8.value};
        yolov8 := None;
      }
    }

    /** The idle timer of `ai_lifecycle_worker` ends. */
    method DetectorTimerEnds(w: AiWorker) returns (next: AiWorker)
      requires w.AiIdle?
      modifies this`yolov8, this`stopped
      ensures var e := if AiWoken(old(Ai(w)), phase.Running?, w.gen) then AiChanged else AiTimeout;
              AiPossible(old(Ai(w)), phase.Running?, e) && Ai(next) == AiStep(old(Ai(w)), phase.Running?, e)
      ensures forall src, v :: old(Valid(src, v, w)) ==> Valid(src, v, next)
    {
      ghost var e := if AiWoken(Ai(w), phase.Running?, w.gen) then AiChanged else AiTimeout;
      forall src, v | Valid(src, v, w) { Keeps(State(src, v, w), AiEv(e)); }
      hide Ok;
      if !phase.Running? || aiStreamRequired || aiGeneration != w.gen {
        return AiTop;
      }
      StopYolov8();
      next := AiTop;
    }

    /** The two locked regions of `stop`; both workers have been joined in between. */
    method BeginStop()
      requires phase.Running?
      modifies this
      ensures forall src, w, v :: State(src, w, v) == Step(old(State(src, w, v)), StopBegin)
      ensures forall src, w, v :: old(Valid(src, w, v)) ==> Valid(src, w, v)
    {
      forall src, w, v | Valid(src, w, v) { Keeps(State(src, w, v), StopBegin); }
      hide Ok;
      phase, subStreamRequired, aiStreamRequired := Stopping, false, false;
      streamGeneration, aiGeneration := streamGeneration + 1, aiGeneration + 1;
    }

    method EndStop(ghost src: Source)
      requires phase.Stopping?
      modifies this
      ensures State(src, SubExited, AiExited) == Step(old(State(src, SubExited, AiExited)), StopEnd)
      ensures old(Valid(src, SubExited, AiExited)) ==> Valid(src, SubExited, AiExited) && started <= stopped
    {
      if Valid(src, SubExited, AiExited) { NoneLeft(State(src, SubExited, AiExited)); }
      hide Ok;
      StopYolov8();
      phase, encoderOn := Stopped, false;
    }
  }

  lemma Keeps(s: Sys, e: Event)
    requires Ok(s) && Possible(s, e)
    ensures Ok(Step(s, e))
  {
    hide Step, SubOk, BusyOk, CallsOk, DetectorOk, ShutdownOk;
    StepKeepsSub(s, e);
    StepKeepsBusy(s, e);
    StepKeepsCalls(s, e);
    StepKeepsDetector(s, e);
  }

  /** After the second half of `stop` every detector that was ever started is stopped. */
  lemma NoneLeft(s: Sys)
    requires Ok(s) && Possible(s, StopEnd)
    ensures Ok(Step(s, StopEnd)) && Step(s, StopEnd).ai.started <= Step(s, StopEnd).ai.stopped
  {
    Keeps(s, StopEnd);
    var ai := Step(s, StopEnd).ai;
    assert ai.started - ai.stopped == {};
    assert forall d :: d in ai.started && d !in ai.stopped ==> d in ai.started - ai.stopped;
  }

  /** The steps of a whole `subscribe`, with no other thread in between. */
  function Subscribed(s: Sys, stream: int, encoderOk: bool): Sys
    requires s.src.busy.Nobody?
  {
    var t := Step(s, SubscribeBegin(stream));
    var u := if t.src.busy.AddingFirst? then Step(t, DemandOn(encoderOk)) else t;
    if u.src.busy.Adding? then Step(u, SubscribeEnd) else u
  }

  lemma SubscribedIs(s: Sys, stream: int, encoderOk: bool)
    requires s.src.busy.Nobody?
    ensures Subscribed(s, stream, encoderOk) ==
            if stream !in s.src.subscribers then s
            else if s.src.subscribers[stream] != {} then s.(src := EndSubscribe(s.src.(busy := Adding(stream))))
            else
              var (t, ok) := SetActive(s, stream, true, encoderOk);
              t.(src := if ok then EndSubscribe(Logged(s.src, stream, true).(busy := Adding(stream))) else s.src)
  {
    hide EndSubscribe, SubSetActive, AiSetActive;
  }

  /** The steps of a whole `unsubscribe`. */
  function Unsubscribed(s: Sys, stream: int, id: nat): Sys
    requires s.src.busy.Nobody?
  {
    var t := Step(s, Demand.Unsubscribe(stream, id));
    if t.src.busy.RemovedLast? then Step(t, DemandOff) else t
  }

  lemma UnsubscribedIs(s: Sys, stream: int, id: nat)
    requires s.src.busy.Nobody?
    ensures Unsubscribed(s, stream, id) ==
            var t := Erase(s.src, stream, id);
            if !t.busy.RemovedLast? then s.(src := t)
            else SetActive(s, stream, false, true).0.(src := Logged(t, stream, false).(busy := Nobody))
  {
    hide SubSetActive, AiSetActive;
  }

  lemma SubscribedKeeps(s: Sys, stream: int, encoderOk: bool)
    requires Ok(s) && s.src.busy.Nobody?
    ensures Ok(Subscribed(s, stream, encoderOk))
  {
    hide Ok, Step;
    var t := Step(s, SubscribeBegin(stream));
    Keeps(s, SubscribeBegin(stream));
    if t.src.busy.AddingFirst? { Keeps(t, DemandOn(encoderOk)); }
    var u := if t.src.busy.AddingFirst? then Step(t, DemandOn(encoderOk)) else t;
    if u.src.busy.Adding? { Keeps(u, SubscribeEnd); }
  }

  lemma UnsubscribedKeeps(s: Sys, stream: int, id: nat)
    requires Ok(s) && s.src.busy.Nobody?
    ensures Ok(Unsubscribed(s, stream, id))
  {
    hide Ok, Step;
    var t := Step(s, Demand.Unsubscribe(stream, id));
    Keeps(s, Demand.Unsubscribe(stream, id));
    if t.src.busy.RemovedLast? { Keeps(t, DemandOff); }
  }

  class MediaSource {
    var subscribers: map<int, set<nat>>
    var nextSubscriptionId: nat
    ghost var demanded: map<int, seq<bool>>

    ghost function State(): Source
      reads this
    {
      Source(subscribers, nextSubscriptionId, Nobody, demanded)
    }

    /** Zero means that the stream is unknown or demand was refused. */
    method Subscribe(p: DevicePipeline, stream: int, encoderOk: bool) returns (id: nat)
      requires nextSubscriptionId > 0
      modifies this, p
      ensures forall w, v :: p.State(State(), w, v) == Subscribed(old(p.State(State(), w, v)), stream, encoderOk)
      ensures id == if nextSubscriptionId > old(nextSubscriptionId) then old(nextSubscriptionId) else 0
      ensures id != 0 ==> stream in subscribers && id in subscribers[stream]
      ensures forall w, v :: old(p.Valid(State(), w, v)) ==> p.Valid(State(), w, v)
    {
      forall w, v | p.Valid(State(), w, v) { SubscribedKeeps(p.State(State(), w, v), stream, encoderOk); }
      hide Subscribed, SetActive, Ok;
      forall w, v { SubscribedIs(p.State(State(), w, v), stream, encoderOk); }
      if stream !in subscribers {
        return 0;
      }
      if subscribers[stream] == {} {
        var ok := p.SetStreamActive(stream, true, encoderOk);
        if !ok {
          return 0;
        }
        demanded := demanded[stream := (if stream in demanded then demanded[stream] else []) + [true]];
      }
      id := nextSubscriptionId;
      nextSubscriptionId := nextSubscriptionId + 1;
      subscribers := subscribers[stream := subscribers[stream] + {id}];
    }

    method Unsubscribe(p: DevicePipeline, stream: int, id: nat)
      modifies this, p
      ensures forall w, v :: p.State(State(), w, v) == Unsubscribed(old(p.State(State(), w, v)), stream, id)
      ensures forall w, v :: old(p.Valid(State(), w, v)) ==> p.Valid(State(), w, v)
    {
      forall w, v | p.Valid(State(), w, v) { UnsubscribedKeeps(p.State(State(), w, v), stream, id); }
      hide Ok, Unsubscribed, SetActive;
      forall w, v { UnsubscribedIs(p.State(State(), w, v), stream, id); }
      if stream !in subscribers || id !in subscribers[stream] {
        return;
      }
      subscribers := subscribers[stream := subscribers[stream] - {id}];
      if subscribers[stream] == {} {
        demanded := demanded[stream := (if stream in demanded then demanded[stream] else []) + [false]];
        var _ := p.SetStreamActive(stream, false, true);
      }
    }
  }
}
