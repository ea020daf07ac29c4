/**
 The WebRTC media fan-out (protocol/webrtc/webrtc_media.cpp): every published
 frame goes into a bounded queue per connected viewer, and one task at a time on
 a single-thread pool drains all queues into the peers.

 Publishers, the signaling thread and the pool thread interleave; each region
 under the mutex is one step, and so is posting the drain task and each write.
 */
module FanOut {
  import opened Base

  const VIDEO_FRAMES := 4
  const AUDIO_FRAMES := 16
  const AUDIO_BYTES := 16 * 1024

  /** `index` is the frame's place in the log of published frames. */
  datatype Frame = Frame(index: nat, keyframe: bool, size: nat)

  /** A viewer's queue for one medium, with its byte counter. */
  datatype Lane = Lane(queue: seq<Frame>, bytes: nat)

  /** What a peer got: frames written to it, and frames a running drain still has to write. */
  datatype Outlet = Outlet(video: seq<Frame>, videoLeft: seq<Frame>, audio: seq<Frame>, audioLeft: seq<Frame>)

  datatype Session = Session(connected: bool, video: Lane, audio: Lane, detection: Option<nat>, out: Outlet)

  /**
   `posting` counts threads between setting `drainScheduled` and posting the drain,
   `tasks` the posted drains that have not started, `failed` whether a post ever failed.
   `gone` are the peers of removed viewers, which a running drain may still write to.
   */
  datatype Hub = Hub(
    videoLimit: nat, viewers: map<string, Session>, gone: seq<Outlet>,
    drainScheduled: bool, posting: nat, tasks: nat, failed: bool,
    keyframePending: bool, requests: nat, keyframes: nat,
    videoLog: seq<Frame>, audioLog: seq<Frame>)

  function Init(videoLimit: nat): Hub {
    Hub(videoLimit, map[], [], false, 0, 0, false, false, 0, 0, [], [])
  }

  const Empty := Lane([], 0)

  function Total(frames: seq<Frame>): nat {
    if frames == [] then 0 else Total(frames[..|frames| - 1]) + frames[|frames| - 1].size
  }

  // ------------------------------------------------------------------ one queue

  predicate Overflows(lane: Lane, f: Frame, frames: nat, bytes: nat) {
    f.size > bytes || |lane.queue| >= frames || lane.bytes + f.size > bytes
  }

  function Push(lane: Lane, f: Frame): Lane { Lane(lane.queue + [f], lane.bytes + f.size) }

  /** An overflow drops the whole queue; an inter frame is then dropped as well. */
  function PushVideo(limit: nat, lane: Lane, f: Frame): Lane {
    if !Overflows(lane, f, VIDEO_FRAMES, limit) then Push(lane, f)
    else if f.keyframe then Push(Empty, f)
    else Empty
  }

  function PushAudio(lane: Lane, f: Frame): Lane {
    if Overflows(lane, f, AUDIO_FRAMES, AUDIO_BYTES) then Push(Empty, f) else Push(lane, f)
  }

  // -------------------------------------------------------------------- steps

  predicate Starved(h: Hub, v: Session, f: Frame) {
    v.connected && !f.keyframe && Overflows(v.video, f, VIDEO_FRAMES, h.videoLimit)
  }

  function TakeVideo(h: Hub, v: Session, f: Frame): Session {
    if v.connected then v.(video := PushVideo(h.videoLimit, v.video, f)) else v
  }

  function TakeAudio(v: Session, f: Frame): Session {
    if v.connected then v.(audio := PushAudio(v.audio, f)) else v
  }

  function TakeDetection(v: Session, d: nat): Session {
    if v.connected then v.(detection := Some(d)) else v
  }

  /** After a change that queued something, the drain is scheduled unless it already is. */
  function Schedule(h: Hub, queued: bool): Hub {
    if queued && !h.drainScheduled then h.(drainScheduled := true, posting := h.posting + 1) else h
  }

  predicate AnyConnected(h: Hub) { exists id :: id in h.viewers && h.viewers[id].connected }

  predicate AnyStarved(h: Hub, f: Frame) { exists id :: id in h.viewers && Starved(h, h.viewers[id], f) }

  predicate AnyFed(h: Hub, f: Frame) {
    exists id :: id in h.viewers && h.viewers[id].connected && !Starved(h, h.viewers[id], f)
  }

  function EnqueueVideo(h: Hub, keyframe: bool, size: nat): Hub {
    var f := Frame(|h.videoLog|, keyframe, size);
    var pending := h.keyframePending && !keyframe;
    var ask := AnyStarved(h, f);
    Schedule(
      h.(viewers := map id | id in h.viewers :: TakeVideo(h, h.viewers[id], f),
         videoLog := h.videoLog + [f],
         keyframePending := pending || ask,
         requests := h.requests + (if ask && !pending then 1 else 0),
         keyframes := h.keyframes + (if keyframe then 1 else 0)),
      AnyFed(h, f))
  }

  function EnqueueAudio(h: Hub, size: nat): Hub {
    var f := Frame(|h.audioLog|, false, size);
    Schedule(
      h.(viewers := map id | id in h.viewers :: TakeAudio(h.viewers[id], f), audioLog := h.audioLog + [f]),
      AnyConnected(h))
  }

  function EnqueueDetection(h: Hub, d: nat): Hub {
    Schedule(h.(viewers := map id | id in h.viewers :: TakeDetection(h.viewers[id], d)), AnyConnected(h))
  }

  /** `remove_viewer`, the part that concerns the queues. */
  function Remove(h: Hub, id: string): Hub {
    if id !in h.viewers then h
    else
      var left := h.viewers - {id};
      h.(viewers := left, gone := h.gone + [h.viewers[id].out], drainScheduled := h.drainScheduled && left != map[])
  }

  function Drained(v: Session): Session {
    v.(video := Empty, audio := Empty, detection := None,
       out := v.out.(videoLeft := v.video.queue, audioLeft := v.audio.queue))
  }

  /** The region of `drain`: every queue is taken away at once. */
  function DrainTake(h: Hub): Hub
    requires h.tasks > 0
  {
    h.(viewers := map id | id in h.viewers :: Drained(h.viewers[id]), drainScheduled := false, tasks := h.tasks - 1)
  }

  predicate Finished(o: Outlet) { o.videoLeft == [] && o.audioLeft == [] }

  /** The pool has one thread: a drain starts when the one before has written everything. */
  predicate DrainFinished(h: Hub) {
    && (forall id :: id in h.viewers ==> Finished(h.viewers[id].out))
    && (forall i :: 0 <= i < |h.gone| ==> Finished(h.gone[i]))
  }

  /** One write: video frames first, then audio. */
  function WriteOne(o: Outlet): Outlet {
    if o.videoLeft != [] then o.(video := o.video + [o.videoLeft[0]], videoLeft := o.videoLeft[1..])
    else if o.audioLeft != [] then o.(audio := o.audio + [o.audioLeft[0]], audioLeft := o.audioLeft[1..])
    else o
  }

  datatype Event =
    | Add(id: string)
    | Connect(id: string)
    | RemoveViewer(id: string)
    | Video(keyframe: bool, size: nat)
    | Audio(size: nat)
    | Detection(d: nat)
    | Post(ok: bool)
    | Drain
    | WriteTo(id: string)
    | WriteGone(i: nat)

  predicate Possible(h: Hub, e: Event) {
    match e
    case Add(id) => id !in h.viewers
    case Connect(id) => id in h.viewers
    case Post(_) => h.posting > 0
    case Drain => h.tasks > 0 && DrainFinished(h)
    case WriteTo(id) => id in h.viewers
    case WriteGone(i) => i < |h.gone|
    case _ => true
  }

  function Step(h: Hub, e: Event): Hub
    requires Possible(h, e)
  {
    match e
    case Add(id) => h.(viewers := h.viewers[id := Session(false, Empty, Empty, None, Outlet([], [], [], []))])
    case Connect(id) => h.(viewers := h.viewers[id := h.viewers[id].(connected := true)])
    case RemoveViewer(id) => Remove(h, id)
    case Video(keyframe, size) => EnqueueVideo(h, keyframe, size)
    case Audio(size) => EnqueueAudio(h, size)
    case Detection(d) => EnqueueDetection(h, d)
    case Post(ok) =>
      if ok then h.(posting := h.posting - 1, tasks := h.tasks + 1)
      else h.(posting := h.posting - 1, drainScheduled := false, failed := true)
    case Drain => DrainTake(h)
    case WriteTo(id) => h.(viewers := h.viewers[id := h.viewers[id].(out := WriteOne(h.viewers[id].out))])
    case WriteGone(i) => h.(gone := h.gone[i := WriteOne(h.gone[i])])
  }

  ghost predicate Run(h: Hub, events: seq<Event>, h': Hub)
    decreases |events|
  {
    if events == [] then h' == h
    else Possible(h, events[0]) && Run(Step(h, events[0]), events[1..], h')
  }

  // ------------------------------------------------------------ queue bounds

  ghost predicate VideoOk(limit: nat, lane: Lane) {
    && lane.bytes == Total(lane.queue)
    && ((|lane.queue| <= VIDEO_FRAMES && lane.bytes <= limit)
        || (|lane.queue| == 1 && lane.queue[0].keyframe && lane.queue[0].size > limit))
  }

  ghost predicate AudioOk(lane: Lane) {
    && lane.bytes == Total(lane.queue)
    && ((|lane.queue| <= AUDIO_FRAMES && lane.bytes <= AUDIO_BYTES)
        || (|lane.queue| == 1 && lane.queue[0].size > AUDIO_BYTES))
  }

  lemma PushVideoOk(limit: nat, lane: Lane, f: Frame)
    requires VideoOk(limit, lane)
    ensures VideoOk(limit, PushVideo(limit, lane, f))
  {
  }

  lemma PushAudioOk(lane: Lane, f: Frame)
    requires AudioOk(lane)
    ensures AudioOk(PushAudio(lane, f))
  {
  }

  // ------------------------------------------------- order, without duplicates

  /**
   The frames are a subsequence of the log: each is the logged frame of its index,
   and the indices strictly increase.
   */
  ghost predicate Subsequence(frames: seq<Frame>, log: seq<Frame>) {
    && (forall i :: 0 <= i < |frames| ==> frames[i].index < |log| && log[frames[i].index] == frames[i])
    && (forall i, j :: 0 <= i < j < |frames| ==> frames[i].index < frames[j].index)
  }

  /** Everything of a session's video, oldest first: written, being written, queued. */
  function VideoChain(v: Session): seq<Frame> { v.out.video + v.out.videoLeft + v.video.queue }
  function AudioChain(v: Session): seq<Frame> { v.out.audio + v.out.audioLeft + v.audio.queue }

  lemma LogGrows(frames: seq<Frame>, log: seq<Frame>, f: Frame)
    requires Subsequence(frames, log)
    ensures Subsequence(frames, log + [f])
  {
  }

  lemma Prefix(front: seq<Frame>, back: seq<Frame>, log: seq<Frame>)
    requires Subsequence(front + back, log)
    ensures Subsequence(front, log)
  {
    assert forall i :: 0 <= i < |front| ==> (front + back)[i] == front[i];
  }

  /** Pushing a new frame keeps a chain a subsequence, whatever the queue drops. */
  lemma PushChain(done: seq<Frame>, lane: Lane, lane': Lane, log: seq<Frame>, f: Frame)
    requires Subsequence(done + lane.queue, log) && f.index == |log|
    requires lane'.queue == lane.queue + [f] || lane'.queue == [f] || lane'.queue == []
    ensures Subsequence(done + lane'.queue, log + [f])
  {
    Prefix(done, lane.queue, log);
    if lane'.queue == lane.queue + [f] {
      assert done + lane'.queue == done + lane.queue + [f];
    }
  }

  // ------------------------------------------------------------- invariants

  ghost predicate SessionOk(h: Hub, v: Session) {
    && VideoOk(h.videoLimit, v.video) && AudioOk(v.audio)
    && Subsequence(VideoChain(v), h.videoLog) && Subsequence(AudioChain(v), h.audioLog)
  }

  ghost predicate OutletOk(h: Hub, o: Outlet) {
    Subsequence(o.video + o.videoLeft, h.videoLog) && Subsequence(o.audio + o.audioLeft, h.audioLog)
  }

  ghost predicate QueuesOk(h: Hub) {
    && (forall id :: id in h.viewers ==> SessionOk(h, h.viewers[id]))
    && (forall i :: 0 <= i < |h.gone| ==> OutletOk(h, h.gone[i]))
  }

  predicate Waiting(v: Session) { v.video.queue != [] || v.audio.queue != [] || v.detection.Some? }

  /** A scheduled drain is on its way, so the flag can never be stuck. */
  ghost predicate DrainOk(h: Hub) {
    && (h.drainScheduled ==> h.posting + h.tasks > 0)
    && (!h.failed ==> forall id :: id in h.viewers && Waiting(h.viewers[id]) ==> h.drainScheduled)
  }

  ghost predicate RequestsOk(h: Hub) {
    h.requests <= h.keyframes + (if h.keyframePending then 1 else 0)
  }

  lemma StepKeepsDrain(h: Hub, e: Event)
    requires DrainOk(h) && Possible(h, e)
    ensures DrainOk(Step(h, e))
  {
  }

  lemma StepKeepsRequests(h: Hub, e: Event)
    requires RequestsOk(h) && Possible(h, e)
    ensures RequestsOk(Step(h, e))
  {
  }

  lemma VideoKeepsSession(h: Hub, v: Session, f: Frame, h': Hub)
    requires SessionOk(h, v) && f.index == |h.videoLog|
    requires h'.videoLog == h.videoLog + [f] && h'.audioLog == h.audioLog && h'.videoLimit == h.videoLimit
    ensures SessionOk(h', TakeVideo(h, v, f))
  {
    hide Subsequence, VideoOk, AudioOk;
    PushVideoOk(h.videoLimit, v.video, f);
    PushChain(v.out.video + v.out.videoLeft, v.video, PushVideo(h.videoLimit, v.video, f), h.videoLog, f);
    LogGrows(VideoChain(v), h.videoLog, f);
  }

  lemma AudioKeepsSession(h: Hub, v: Session, f: Frame, h': Hub)
    requires SessionOk(h, v) && f.index == |h.audioLog|
    requires h'.audioLog == h.audioLog + [f] && h'.videoLog == h.videoLog && h'.videoLimit == h.videoLimit
    ensures SessionOk(h', TakeAudio(v, f))
  {
    hide Subsequence, VideoOk, AudioOk;
    PushAudioOk(v.audio, f);
    PushChain(v.out.audio + v.out.audioLeft, v.audio, PushAudio(v.audio, f), h.audioLog, f);
    LogGrows(AudioChain(v), h.audioLog, f);
  }

  lemma OutletGrows(h: Hub, o: Outlet, f: Frame, h': Hub)
    requires OutletOk(h, o)
    requires (h'.videoLog == h.videoLog && h'.audioLog == h.audioLog + [f])
          || (h'.videoLog == h.videoLog + [f] && h'.audioLog == h.audioLog)
    ensures OutletOk(h', o)
  {
  }

  lemma DrainKeepsSession(h: Hub, v: Session)
    requires SessionOk(h, v) && Finished(v.out)
    ensures SessionOk(h, Drained(v))
  {
    assert VideoChain(Drained(v)) == VideoChain(v);
    assert AudioChain(Drained(v)) == AudioChain(v);
  }

  lemma WriteKeepsSession(h: Hub, v: Session)
    requires SessionOk(h, v)
    ensures SessionOk(h, v.(out := WriteOne(v.out)))
  {
    var w := v.(out := WriteOne(v.out));
    assert VideoChain(w) == VideoChain(v) && AudioChain(w) == AudioChain(v);
  }

  lemma WriteKeepsOutlet(h: Hub, o: Outlet)
    requires OutletOk(h, o)
    ensures OutletOk(h, WriteOne(o))
  {
    var w := WriteOne(o);
    assert w.video + w.videoLeft == o.video + o.videoLeft;
    assert w.audio + w.audioLeft == o.audio + o.audioLeft;
  }

  lemma RemovedOutletOk(h: Hub, v: Session)
    requires SessionOk(h, v)
    ensures OutletOk(h, v.out)
  {
    Prefix(v.out.video + v.out.videoLeft, v.video.queue, h.videoLog);
    Prefix(v.out.audio + v.out.audioLeft, v.audio.queue, h.audioLog);
  }

  lemma NewSessionOk(h: Hub)
    ensures SessionOk(h, Session(false, Empty, Empty, None, Outlet([], [], [], [])))
  {
  }

  lemma StepKeepsQueues(h: Hub, e: Event)
    requires QueuesOk(h) && Possible(h, e)
    ensures QueuesOk(Step(h, e))
  {
    hide SessionOk, OutletOk, TakeVideo, TakeAudio, Drained, WriteOne;
    var h' := Step(h, e);
    forall id | id in h'.viewers ensures SessionOk(h', h'.viewers[id]) { SessionAfter(h, e, id); }
    forall i | 0 <= i < |h'.gone| ensures OutletOk(h', h'.gone[i]) { GoneAfter(h, e, i); }
  }

  lemma SessionAfter(h: Hub, e: Event, id: string)
    requires QueuesOk(h) && Possible(h, e) && id in Step(h, e).viewers
    ensures SessionOk(Step(h, e), Step(h, e).viewers[id])
  {
    hide Subsequence, VideoOk, AudioOk, TakeVideo, TakeAudio, Drained, WriteOne;
    var h' := Step(h, e);
    match e
    case Add(_) => NewSessionOk(h);
    case Video(keyframe, size) => VideoKeepsSession(h, h.viewers[id], Frame(|h.videoLog|, keyframe, size), h');
    case Audio(size) => AudioKeepsSession(h, h.viewers[id], Frame(|h.audioLog|, false, size), h');
    case Drain => DrainKeepsSession(h, h.viewers[id]);
    case WriteTo(_) => WriteKeepsSession(h, h.viewers[id]);
    case _ =>
  }

  lemma GoneAfter(h: Hub, e: Event, i: nat)
    requires QueuesOk(h) && Possible(h, e) && i < |Step(h, e).gone|
    ensures OutletOk(Step(h, e), Step(h, e).gone[i])
  {
    var h' := Step(h, e);
    match e
    case Video(keyframe, size) => OutletGrows(h, h.gone[i], Frame(|h.videoLog|, keyframe, size), h');
    case Audio(size) => OutletGrows(h, h.gone[i], Frame(|h.audioLog|, false, size), h');
    case WriteGone(k) => WriteKeepsOutlet(h, h.gone[i]);
    case RemoveViewer(id) => if id in h.viewers { RemovedOutletOk(h, h.viewers[id]); }
    case _ =>
  }

  // --------------------------------------------------------------- whole runs

  ghost predicate Ok(h: Hub) { QueuesOk(h) && DrainOk(h) && RequestsOk(h) }

  lemma {:induction false} RunKeepsOk(h: Hub, events: seq<Event>, h': Hub)
    requires Ok(h) && Run(h, events, h')
    ensures Ok(h')
    decreases |events|
  {
    hide Step, Possible, QueuesOk, DrainOk, RequestsOk;
    if events != [] {
      StepKeepsQueues(h, events[0]);
      StepKeepsDrain(h, events[0]);
      StepKeepsRequests(h, events[0]);
      RunKeepsOk(Step(h, events[0]), events[1..], h');
    }
  }

  /**
   In every interleaving, what a viewer was sent, is being sent and still has
   queued is a subsequence of what was published: no duplicate, no reordering.
   */
  lemma FramesStayInOrder(limit: nat, events: seq<Event>, h: Hub, id: string)
    requires Run(Init(limit), events, h) && id in h.viewers
    ensures Subsequence(VideoChain(h.viewers[id]), h.videoLog)
    ensures Subsequence(AudioChain(h.viewers[id]), h.audioLog)
  {
    RunKeepsOk(Init(limit), events, h);
  }

  /** The same for what reached the peers of viewers that are gone. */
  lemma RemovedPeersSawOrder(limit: nat, events: seq<Event>, h: Hub, i: nat)
    requires Run(Init(limit), events, h) && i < |h.gone|
    ensures Subsequence(h.gone[i].video, h.videoLog) && Subsequence(h.gone[i].audio, h.audioLog)
  {
    RunKeepsOk(Init(limit), events, h);
    Prefix(h.gone[i].video, h.gone[i].videoLeft, h.videoLog);
    Prefix(h.gone[i].audio, h.gone[i].audioLeft, h.audioLog);
  }

  /** Counters are exact and the bounds hold, but for a lone oversize frame. */
  lemma QueuesStayBounded(limit: nat, events: seq<Event>, h: Hub, id: string)
    requires Run(Init(limit), events, h) && id in h.viewers
    ensures VideoOk(limit, h.viewers[id].video) && AudioOk(h.viewers[id].audio)
  {
    RunKeepsOk(Init(limit), events, h);
    RunKeepsLimit(Init(limit), events, h);
  }

  lemma {:induction false} RunKeepsLimit(h: Hub, events: seq<Event>, h': Hub)
    requires Run(h, events, h')
    ensures h'.videoLimit == h.videoLimit
    decreases |events|
  {
    if events != [] { RunKeepsLimit(Step(h, events[0]), events[1..], h'); }
  }

  /** Overflow asks for at most one keyframe more than were published. */
  lemma KeyframeRequestsAreBounded(limit: nat, events: seq<Event>, h: Hub)
    requires Run(Init(limit), events, h)
    ensures h.requests <= h.keyframes + 1
  {
    RunKeepsOk(Init(limit), events, h);
  }

  /**
   Posting never having failed, a viewer with something queued has a drain coming,
   even when the table was empty in between. And failed or not, the flag is never
   set without a drain coming, so the next queued frame schedules one.
   */
  lemma NoFrameIsStranded(limit: nat, events: seq<Event>, h: Hub, id: string)
    requires Run(Init(limit), events, h) && id in h.viewers && Waiting(h.viewers[id])
    ensures !h.failed ==> h.posting + h.tasks > 0
    ensures h.drainScheduled ==> h.posting + h.tasks > 0
  {
    RunKeepsOk(Init(limit), events, h);
  }

  predicate AnyWaiting(h: Hub) { exists id :: id in h.viewers && Waiting(h.viewers[id]) }

  /** Something is queued, and no drain is posted or about to be. */
  predicate Stranded(h: Hub) { h.posting + h.tasks == 0 && AnyWaiting(h) }

  /** The step queues something for somebody. */
  predicate Feeds(h: Hub, e: Event) {
    match e
    case Video(keyframe, size) => AnyFed(h, Frame(|h.videoLog|, keyframe, size))
    case Audio(_) => AnyConnected(h)
    case Detection(_) => AnyConnected(h)
    case _ => false
  }

  /**
   In every run, queued frames become stranded exactly when the only post on its
   way fails, no drain is outstanding, and somebody still waits.
   */
  lemma StrandedExactlyByFailedPost(limit: nat, events: seq<Event>, h: Hub, e: Event)
    requires Run(Init(limit), events, h) && Possible(h, e) && !Stranded(h)
    ensures Stranded(Step(h, e)) <==> e == Post(false) && h.posting == 1 && h.tasks == 0 && AnyWaiting(h)
  {
    hide Run, QueuesOk, RequestsOk;
    InitIsOk(limit);
    RunKeepsOk(Init(limit), events, h);
    StrandsExactly(h, e);
  }

  lemma StrandsExactly(h: Hub, e: Event)
    requires DrainOk(h) && Possible(h, e) && !Stranded(h)
    ensures Stranded(Step(h, e)) <==> e == Post(false) && h.posting == 1 && h.tasks == 0 && AnyWaiting(h)
  {
    var h' := Step(h, e);
    forall id | id in h'.viewers && Waiting(h'.viewers[id])
      ensures AnyWaiting(h) || h'.drainScheduled
    {
      if id in h.viewers && !Waiting(h.viewers[id]) { assert h.viewers[id].video.queue == []; }
    }
    StepKeepsDrain(h, e);
  }

  /**
   And they stay stranded exactly until a step queues something new, which
   schedules a drain, or takes away everything that waited.
   */
  lemma RescuedExactlyByNextFrame(limit: nat, events: seq<Event>, h: Hub, e: Event)
    requires Run(Init(limit), events, h) && Possible(h, e) && Stranded(h)
    ensures Stranded(Step(h, e)) <==> !Feeds(h, e) && AnyWaiting(Step(h, e))
    ensures Feeds(h, e) ==> Step(h, e).posting == 1 && Step(h, e).drainScheduled
  {
    hide Run, QueuesOk, RequestsOk, Starved, Overflows;
    InitIsOk(limit);
    RunKeepsOk(Init(limit), events, h);
  }

  lemma InitIsOk(limit: nat)
    ensures Ok(Init(limit))
  {
  }

  /** One failed post is enough to strand a frame until the next one is queued. */
  lemma FailedPostStrandsFrame()
    ensures exists events, h :: Run(Init(100), events, h) && "v" in h.viewers && Waiting(h.viewers["v"])
              && !h.drainScheduled && h.posting + h.tasks == 0
  {
    var h1 := Step(Init(100), Add("v"));
    var h2 := Step(h1, Connect("v"));
    var h3 := Step(h2, Video(true, 10));
    var h4 := Step(h3, Post(false));
    var events := [Add("v"), Connect("v"), Video(true, 10), Post(false)];
    assert Run(Init(100), events, h4);
  }
}
