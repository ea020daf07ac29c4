/**
 The fan-out object: the loops of protocol/webrtc/webrtc_media.cpp over the viewer
 table, proved to do what module `FanOut` says.
 */
module MediaFanOut {
  import opened Base
  import opened FanOut

  class Media {
    const videoLimit: nat
    var viewers: map<string, Session>
    var gone: seq<Outlet>
    var drainScheduled: bool
    var posting: nat
    var tasks: nat
    var failed: bool
    var keyframePending: bool
    var requests: nat
    var keyframes: nat
    var videoLog: seq<Frame>
    var audioLog: seq<Frame>

    function State(): Hub
      reads this
    {
      Hub(videoLimit, viewers, gone, drainScheduled, posting, tasks, failed,
          keyframePending, requests, keyframes, videoLog, audioLog)
    }

    constructor (videoLimit: nat)
      ensures State() == Init(videoLimit)
    {
      this.videoLimit := videoLimit;
      viewers, gone, drainScheduled, posting, tasks, failed := map[], [], false, 0, 0, false;
      keyframePending, requests, keyframes, videoLog, audioLog := false, 0, 0, [], [];
    }

    method ScheduleDrain(queued: bool)
      modifies this`drainScheduled, this`posting
      ensures State() == Schedule(old(State()), queued)
    {
      if queued && !drainScheduled {
        drainScheduled, posting := true, posting + 1;
      }
    }

    method EnqueueVideoFrame(keyframe: bool, size: nat)
      modifies this
      ensures State() == EnqueueVideo(old(State()), keyframe, size)
    {
      hide Schedule, TakeVideo, Starved;
      var f := Frame(|videoLog|, keyframe, size);
      var pending := keyframePending && !keyframe;
      var ask, queued := OfferVideo(f);
      videoLog := videoLog + [f];
      keyframePending := pending || ask;
      requests := requests + (if ask && !pending then 1 else 0);
      keyframes := keyframes + (if keyframe then 1 else 0);
      ScheduleDrain(queued);
    }

    /** The loop over the viewers: `ask` if one overflowed, `queued` if one took the frame. */
    method OfferVideo(f: Frame) returns (ask: bool, queued: bool)
      modifies this`viewers
      ensures ask == AnyStarved(old(State()), f) && queued == AnyFed(old(State()), f)
      ensures viewers == map id | id in old(viewers) :: TakeVideo(old(State()), old(viewers)[id], f)
    {
      hide Overflows;
      ghost var h := State();
      var todo := viewers.Keys;
      ask, queued := false, false;
      while todo != {}
        invariant todo <= viewers.Keys == h.viewers.Keys
        invariant forall id :: id in h.viewers ==>
                    viewers[id] == if id in todo then h.viewers[id] else TakeVideo(h, h.viewers[id], f)
        invariant ask <==> exists id :: id in h.viewers && id !in todo && Starved(h, h.viewers[id], f)
        invariant queued <==> exists id :: id in h.viewers && id !in todo && h.viewers[id].connected
                                           && !Starved(h, h.viewers[id], f)
        decreases todo
      {
        var id :| id in todo;
        todo := todo - {id};
        var v := viewers[id];
        if v.connected {
          var overflow := Overflows(v.video, f, VIDEO_FRAMES, videoLimit);
          var lane := if overflow then Empty else v.video;
          if overflow && !f.keyframe {
            ask := true;
          } else {
            lane := Lane(lane.queue + [f], lane.bytes + f.size);
            queued := true;
          }
          viewers := viewers[id := v.(video := lane)];
        }
      }
    }

    method EnqueueAudioFrame(size: nat)
      modifies this
      ensures State() == EnqueueAudio(old(State()), size)
    {
      hide Schedule, TakeAudio;
      var f := Frame(|audioLog|, false, size);
      var queued := OfferAudio(f);
      audioLog := audioLog + [f];
      ScheduleDrain(queued);
    }

    method OfferAudio(f: Frame) returns (queued: bool)
      modifies this`viewers
      ensures queued == AnyConnected(old(State()))
      ensures viewers == map id | id in old(viewers) :: TakeAudio(old(viewers)[id], f)
    {
      hide Overflows;
      ghost var was := viewers;
      var todo := viewers.Keys;
      queued := false;
      while todo != {}
        invariant todo <= viewers.Keys == was.Keys
        invariant forall id :: id in was ==> viewers[id] == if id in todo then was[id] else TakeAudio(was[id], f)
        invariant queued <==> exists id :: id in was && id !in todo && was[id].connected
        decreases todo
      {
        var id :| id in todo;
        todo := todo - {id};
        var v := viewers[id];
        if v.connected {
          var lane := if Overflows(v.audio, f, AUDIO_FRAMES, AUDIO_BYTES) then Empty else v.audio;
          viewers := viewers[id := v.(audio := Lane(lane.queue + [f], lane.bytes + f.size))];
          queued := true;
        }
      }
    }

    /** The drain was posted, or the flag is taken back. */
    method PostDrain(ok: bool)
      requires posting > 0
      modifies this
      ensures State() == Step(old(State()), Post(ok))
    {
      posting := posting - 1;
      if ok {
        tasks := tasks + 1;
      } else {
        drainScheduled, failed := false, true;
      }
    }

    /** The locked part of `drain`. */
    method TakeBatches()
      requires tasks > 0
      modifies this`viewers, this`drainScheduled, this`tasks
      ensures State() == DrainTake(old(State()))
    {
      DrainViewers();
      drainScheduled, tasks := false, tasks - 1;
    }

    method DrainViewers()
      modifies this`viewers
      ensures viewers == map id | id in old(viewers) :: Drained(old(viewers)[id])
    {
      hide Drained;
      var todo := viewers.Keys;
      while todo != {}
        invariant todo <= viewers.Keys == old(viewers.Keys)
        invariant forall id :: id in viewers ==>
                    viewers[id] == if id in todo then old(viewers)[id] else Drained(old(viewers)[id])
        decreases |todo|
      {
        var id :| id in todo;
        todo := todo - {id};
        viewers := viewers[id := Drained(viewers[id])];
      }
    }
  }
}
