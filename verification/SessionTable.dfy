/**
 The plugin object that keeps the viewer table (protocol/webrtc/webrtc_session.cpp and
 the uplink functions of webrtc_media.cpp), its methods proved against `Sessions`.
 */
module SessionTable {
  import opened Base
  import opened Sessions

  class WebRtcPlugin {
    const limit: nat
    const detections: bool
    var viewers: map<string, Viewer>
    var pending: map<string, seq<Candidate>>
    var videoSub: nat
    var aiHoldSub: nat
    var detectSub: nat
    var arrived: nat
    // What the outside has seen: subscriptions, peers, and the candidates' addressees.
    ghost var obtained: set<Sub>
    ghost var released: set<Sub>
    ghost var peers: map<nat, Peer>
    ghost var log: seq<string>

    ghost function State(): Plugin
      reads this
    {
      Plugin(limit, detections, viewers,
             Subs(videoSub, aiHoldSub, detectSub, obtained, released), Mail(pending, peers, log))
    }

    ghost predicate Valid()
      reads this
    {
      arrived == |log| && Ok(State())
    }

    constructor (limit: nat, detections: bool)
      ensures Valid() && State() == Init(limit, detections)
    {
      this.limit, this.detections := limit, detections;
      viewers, pending := map[], map[];
      videoSub, aiHoldSub, detectSub, arrived := 0, 0, 0, 0;
      obtained, released, peers, log := {}, {}, map[], [];
    }

    method AnyViewerConnected() returns (any: bool)
      ensures any == AnyConnected(viewers)
    {
      any := false;
      var rest := viewers.Keys;
      while rest != {} && !any
        invariant rest <= viewers.Keys
        invariant any ==> AnyConnected(viewers)
        invariant forall id :: id in viewers && id !in rest && !any ==> !viewers[id].connected
        decreases |rest|
      {
        var id :| id in rest;
        any := viewers[id].connected;
        rest := rest - {id};
      }
    }

    method StartPreview(got: nat, running: bool) returns (ok: bool)
      modifies this`videoSub, this`obtained, this`released
      ensures (State(), ok) == StartUplink(old(State()), got, running)
    {
      if videoSub != 0 { return true; }
      if got == 0 { return false; }
      obtained := obtained + {Preview(got)};
      if running {
        videoSub := got;
      } else {
        released := released + {Preview(got)};
      }
      ok := running;
    }

    method StartDetections(ai: nat, detect: nat, running: bool)
      modifies this`aiHoldSub, this`detectSub, this`obtained, this`released
      ensures State() == StartAi(old(State()), ai, detect, running)
    {
      if !detections || aiHoldSub != 0 { return; }
      obtained := obtained + One(AiHold(ai)) + One(Detections(detect));
      var any := AnyViewerConnected();
      if ai != 0 && running && any {
        aiHoldSub, detectSub := ai, detect;
      } else {
        released := released + One(AiHold(ai)) + One(Detections(detect));
      }
    }

    method ReleaseUnshared()
      modifies this`videoSub, this`aiHoldSub, this`detectSub, this`released
      ensures State() == old(State()).(subs := Unshared(old(State()).subs, viewers))
    {
      var any := AnyViewerConnected();
      if !any {
        released := released + One(AiHold(aiHoldSub)) + One(Detections(detectSub));
        aiHoldSub, detectSub := 0, 0;
      }
      if viewers == map[] {
        released := released + One(Preview(videoSub));
        videoSub := 0;
      }
    }

    method RemoveViewer(id: string)
      modifies this`viewers, this`pending, this`videoSub, this`aiHoldSub, this`detectSub, this`released
      ensures State() == Remove(old(State()), id)
    {
      if id !in viewers { return; }
      viewers := viewers - {id};
      pending := pending - {id};
      ReleaseUnshared();
    }

    /** The peer of this viewer takes the offer; what waited follows it. */
    method AnswerOffer(id: string, peer: nat)
      requires peer in peers
      modifies this`viewers, this`pending, this`peers
      ensures State() == Describe(old(State()), id, peer)
    {
      if id in viewers {
        viewers := viewers[id := viewers[id].(ready := true)];
      }
      var queued := if id in pending then pending[id] else [];
      pending := pending - {id};
      peers := peers[peer := peers[peer].(described := true, given := peers[peer].given + queued)];
    }

    method CreateViewer(id: string, o: Offer)
      requires Valid() && Possible(State(), OfferFrom(id, o))
      modifies this
      ensures Valid() && State() == Step(old(State()), OfferFrom(id, o))
    {
      hide Ok, Remove, StartUplink, Admit;
      Keeps(State(), OfferFrom(id, o));
      if id == "" || !o.running { return; }
      RemoveViewer(id);
      if |viewers| >= limit { return; }
      var ok := StartPreview(o.subscription, o.stillRunning);
      if !ok || !o.startOk || !o.runningAtInsert { return; }
      AdmitViewer(id, o);
    }

    method AdmitViewer(id: string, o: Offer)
      modifies this`viewers, this`pending, this`videoSub, this`aiHoldSub, this`detectSub, this`released, this`peers
      ensures State() == Admit(old(State()), id, o)
    {
      viewers := viewers[id := Viewer(o.peer, false, false)];
      peers := peers[o.peer := Peer(id, false, [])];
      if !o.offerOk || o.droppedMeanwhile { RemoveViewer(id); }
      if o.offerOk { AnswerOffer(id, o.peer); }
    }

    method OnConnected(id: string, peer: nat, ai: nat, detect: nat, running: bool)
      requires Valid() && Possible(State(), Connected(id, peer, ai, detect, running))
      modifies this`viewers, this`aiHoldSub, this`detectSub, this`obtained, this`released
      ensures Valid() && State() == Step(old(State()), Connected(id, peer, ai, detect, running))
    {
      Keeps(State(), Connected(id, peer, ai, detect, running));
      if id in viewers && viewers[id].peer == peer {
        viewers := viewers[id := viewers[id].(connected := true)];
        StartDetections(ai, detect, running);
      }
    }

    method ApplyRemoteCandidate(id: string, blank: bool)
      requires arrived == |log| && forall k :: k in viewers && viewers[k].ready ==> viewers[k].peer in peers
      modifies this`pending, this`arrived, this`peers, this`log
      ensures arrived == |log| && State() == Step(old(State()), CandidateFrom(id, blank))
    {
      var n := arrived;
      arrived := arrived + 1;
      var to := FindViewer(id);
      if to.Some? {
        var viewer := viewers[to.value];
        if viewer.ready {
          peers := peers[viewer.peer := peers[viewer.peer].(given := peers[viewer.peer].given + [n])];
        } else if !blank {
          PushPending(id, n);
        }
      } else if id != "" && !blank && |pending| < MAX_PENDING {
        PushPending(id, n);
      }
      log := log + [id];
    }

    method FindViewer(id: string) returns (to: Option<string>)
      ensures to == Addressee(State(), id)
    {
      to := None;
      if id in viewers {
        to := Some(id);
      } else if id == "" && |viewers| == 1 {
        var k :| k in viewers;
        to := Some(k);
        OnlyKey(viewers, k);
      }
    }

    method PushPending(id: string, n: Candidate)
      modifies this`pending
      ensures var queue := Waiting(old(State()).mail, id);
              pending == old(pending)[id := if |queue| < MAX_PENDING then queue + [n] else queue]
    {
      if id !in pending { pending := pending[id := []]; }
      if |pending[id]| < MAX_PENDING {
        pending := pending[id := pending[id] + [n]];
      }
    }

    /** Nobody is left; a preview subscription that had no viewer before stays held. */
    method RemoveAllViewers()
      requires Valid()
      modifies this`viewers, this`pending, this`videoSub, this`aiHoldSub, this`detectSub, this`released
      ensures Valid() && viewers == map[]
      ensures aiHoldSub == 0 && detectSub == 0
      ensures videoSub == if old(viewers) != map[] then 0 else old(videoSub)
      ensures forall id :: id in old(viewers) ==> id !in pending
      ensures forall id :: id in old(pending) && id !in old(viewers) ==>
                id in pending && pending[id] == old(pending[id])
    {
      hide Ok, Remove;
      var ids := viewers.Keys;
      while ids != {}
        invariant Valid() && ids == viewers.Keys && ids <= old(viewers.Keys)
        invariant ids == {} ==> videoSub == if old(viewers) != map[] then 0 else old(videoSub)
        invariant forall id :: id in old(viewers) && id !in ids ==> id !in pending
        invariant forall id :: id in old(pending) && id !in old(viewers) ==>
                    id in pending && pending[id] == old(pending[id])
        decreases |ids|
      {
        var id :| id in ids;
        Keeps(State(), PeerGone(id));
        RemoveFacts(State(), id);
        RemoveViewer(id);
        ids := ids - {id};
      }
      NobodyLeft(State());
    }
  }

  lemma Keeps(s: Plugin, e: Event)
    requires Ok(s) && Possible(s, e)
    ensures Ok(Step(s, e))
  {
    StepKeepsSubs(s, e);
    StepKeepsCandidates(s, e);
  }

  lemma RemoveFacts(s: Plugin, id: string)
    requires id in s.viewers
    ensures var t := Remove(s, id);
            && t.viewers == s.viewers - {id} && t.mail.pending == s.mail.pending - {id}
            && (t.viewers == map[] ==> t.subs.video == 0)
  {
  }

  lemma NobodyLeft(s: Plugin)
    requires Ok(s) && s.viewers == map[]
    ensures s.subs.ai == 0 && s.subs.detect == 0
  {
  }

  lemma OnlyKey(viewers: map<string, Viewer>, k: string)
    requires |viewers| == 1 && k in viewers
    ensures forall j :: j in viewers ==> j == k
  {
    assert viewers.Keys - {k} == {} by { assert |viewers.Keys - {k}| == 0; }
    assert forall j :: j in viewers && j != k ==> j in viewers.Keys - {k};
  }
}
