/**
 WebRTC viewer sessions (protocol/webrtc/webrtc_session.cpp and the two uplink
 functions of webrtc_media.cpp): the viewer table, the shared subscriptions, and
 ICE candidates that arrive before their viewer's offer.

 All of this runs on the signaling poller's thread, one call after another. What
 the calls ask of the outside (a subscription, a peer, an offer) answers through
 parameters; `running` may be cleared by another thread between any two reads.
 */
module Sessions {
  import opened Base

  const MAX_PENDING := 32

  /** Zero is no subscription. */
  datatype Sub = Preview(id: nat) | AiHold(id: nat) | Detections(id: nat)

  /** The n-th remote candidate to arrive. */
  type Candidate = nat

  datatype Viewer = Viewer(peer: nat, connected: bool, ready: bool)

  /** A peer connection: its viewer, whether its remote description is set, and the candidates it was given. */
  datatype Peer = Peer(owner: string, described: bool, given: seq<Candidate>)

  /** The three handles, and every subscription ever obtained or given back. */
  datatype Subs = Subs(video: nat, ai: nat, detect: nat, obtained: set<Sub>, released: set<Sub>)

  /** Candidates waiting for an offer, the peers, and the viewer named by each candidate that has arrived. */
  datatype Mail = Mail(pending: map<string, seq<Candidate>>, peers: map<nat, Peer>, log: seq<string>)

  datatype Plugin = Plugin(
    limit: nat, detections: bool,
    viewers: map<string, Viewer>, subs: Subs, mail: Mail)

  function Init(limit: nat, detections: bool): Plugin {
    Plugin(limit, detections, map[], Subs(0, 0, 0, {}, {}), Mail(map[], map[], []))
  }

  predicate AnyConnected(viewers: map<string, Viewer>) {
    exists id :: id in viewers && viewers[id].connected
  }

  function One(x: Sub): set<Sub> { if x.id != 0 then {x} else {} }

  // ------------------------------------------------------------- subscriptions

  function DropVideo(h: Subs): Subs {
    h.(video := 0, released := h.released + One(Preview(h.video)))
  }

  function DropAi(h: Subs): Subs {
    h.(ai := 0, detect := 0, released := h.released + One(AiHold(h.ai)) + One(Detections(h.detect)))
  }

  /** A new preview subscription is stored, or given back at once. */
  function GainVideo(h: Subs, got: nat, keep: bool): Subs {
    var t := h.(obtained := h.obtained + One(Preview(got)));
    if keep then t.(video := got) else t.(released := h.released + One(Preview(got)))
  }

  function GainAi(h: Subs, ai: nat, detect: nat, keep: bool): Subs {
    var both := One(AiHold(ai)) + One(Detections(detect));
    var t := h.(obtained := h.obtained + both);
    if keep then t.(ai := ai, detect := detect) else t.(released := h.released + both)
  }

  /** `start_uplink`: `got` is what `subscribe` returned, `running` the later check. */
  function StartUplink(s: Plugin, got: nat, running: bool): (r: (Plugin, bool))
    ensures r.0.limit == s.limit
  {
    if s.subs.video != 0 then (s, true)
    else if got == 0 then (s, false)
    else (s.(subs := GainVideo(s.subs, got, running)), running)
  }

  /** `start_ai_uplink` */
  function StartAi(s: Plugin, ai: nat, detect: nat, running: bool): (r: Plugin)
    ensures r.limit == s.limit
  {
    if !s.detections || s.subs.ai != 0 then s
    else s.(subs := GainAi(s.subs, ai, detect, ai != 0 && running && AnyConnected(s.viewers)))
  }

  function Forget(m: Mail, id: string): Mail { m.(pending := m.pending - {id}) }

  function Unshared(h: Subs, left: map<string, Viewer>): Subs {
    var t := if AnyConnected(left) then h else DropAi(h);
    if left == map[] then DropVideo(t) else t
  }

  /** `remove_viewer` */
  function Remove(s: Plugin, id: string): (r: Plugin)
    ensures r.limit == s.limit
  {
    if id !in s.viewers then s
    else s.(viewers := s.viewers - {id}, mail := Forget(s.mail, id), subs := Unshared(s.subs, s.viewers - {id}))
  }

  // -------------------------------------------------------------------- offers

  /** What the outside answers during `create_viewer`. */
  datatype Offer = Offer(
    running: bool, subscription: nat, stillRunning: bool, peer: nat, startOk: bool,
    runningAtInsert: bool, offerOk: bool,
    droppedMeanwhile: bool)        // the peer reported failure from inside the offer call

  function Insert(s: Plugin, id: string, o: Offer): (r: Plugin)
    ensures r.limit == s.limit
  {
    s.(viewers := s.viewers[id := Viewer(o.peer, false, false)],
       mail := s.mail.(peers := s.mail.peers[o.peer := Peer(id, false, [])]))
  }

  function Readied(viewers: map<string, Viewer>, id: string): map<string, Viewer> {
    if id in viewers then viewers[id := viewers[id].(ready := true)] else viewers
  }

  function Waiting(m: Mail, id: string): seq<Candidate> { if id in m.pending then m.pending[id] else [] }

  /** The remote description is set: buffered candidates follow it. */
  function Told(m: Mail, id: string, p: nat): Peer
    requires p in m.peers
  {
    m.peers[p].(described := true, given := m.peers[p].given + Waiting(m, id))
  }

  function Flush(m: Mail, id: string, p: nat): Mail
    requires p in m.peers
  {
    m.(pending := m.pending - {id}, peers := m.peers[p := Told(m, id, p)])
  }

  function Describe(s: Plugin, id: string, p: nat): (r: Plugin)
    requires p in s.mail.peers
    ensures r.limit == s.limit
  {
    s.(viewers := Readied(s.viewers, id), mail := Flush(s.mail, id, p))
  }

  /** `create_viewer` */
  function Create(s: Plugin, id: string, o: Offer): (r: Plugin)
    ensures r.limit == s.limit
  {
    if id == "" || !o.running then s
    else
      var t := Remove(s, id);
      if |t.viewers| >= t.limit then t
      else
        var (u, ok) := StartUplink(t, o.subscription, o.stillRunning);
        if !ok || !o.startOk || !o.runningAtInsert then u else Admit(u, id, o)
  }

  /** The viewer enters the table and its offer is answered. */
  function Admit(s: Plugin, id: string, o: Offer): (r: Plugin)
    ensures r.limit == s.limit
  {
    var v := Insert(s, id, o);
    if !o.offerOk then Remove(v, id)
    else Describe(if o.droppedMeanwhile then Remove(v, id) else v, id, o.peer)
  }

  // ---------------------------------------------------------------- candidates

  function Buffer(m: Mail, id: string): Mail {
    var queue := Waiting(m, id);
    m.(pending := m.pending[id := if |queue| < MAX_PENDING then queue + [|m.log|] else queue], log := m.log + [id])
  }

  function Give(m: Mail, p: nat, id: string): Mail
    requires p in m.peers
  {
    m.(peers := m.peers[p := m.peers[p].(given := m.peers[p].given + [|m.log|])], log := m.log + [id])
  }

  function Lose(m: Mail, id: string): Mail { m.(log := m.log + [id]) }

  /** The viewer a candidate is for: the named one, or the only one when it names nobody. */
  ghost function Addressee(s: Plugin, id: string): Option<string> {
    if id in s.viewers then Some(id)
    else if id == "" && |s.viewers| == 1 then (var k :| k in s.viewers; Some(k))
    else None
  }

  /** `apply_remote_candidate`; a blank candidate is never buffered. */
  ghost function Apply(s: Plugin, id: string, blank: bool): (r: Plugin)
    ensures r.limit == s.limit
  {
    var to := Addressee(s, id);
    s.(mail :=
         if to.Some? && s.viewers[to.value].ready && s.viewers[to.value].peer in s.mail.peers then
           Give(s.mail, s.viewers[to.value].peer, id)
         else if to.Some? && !blank && !s.viewers[to.value].ready then Buffer(s.mail, id)
         else if to.None? && id != "" && !blank && |s.mail.pending| < MAX_PENDING then Buffer(s.mail, id)
         else Lose(s.mail, id))
  }

  // --------------------------------------------------------------------- steps

  datatype Event =
    | OfferFrom(id: string, offer: Offer)
    | Connected(id: string, peer: nat, ai: nat, detect: nat, running: bool)
    | PeerGone(id: string)         // failed, closed, left, or the signaling link is down
    | CandidateFrom(id: string, blank: bool)
    | ForgetPending

  /** New subscriptions and peers are new. */
  predicate Possible(s: Plugin, e: Event) {
    match e
    case OfferFrom(_, o) =>
      o.peer !in s.mail.peers && Preview(o.subscription) !in s.subs.obtained
    case Connected(_, _, ai, detect, _) => AiHold(ai) !in s.subs.obtained && Detections(detect) !in s.subs.obtained
    case _ => true
  }

  ghost function Step(s: Plugin, e: Event): (r: Plugin)
    ensures r.limit == s.limit
  {
    match e
    case OfferFrom(id, o) => Create(s, id, o)
    case Connected(id, peer, ai, detect, running) =>
      if id in s.viewers && s.viewers[id].peer == peer
      then StartAi(s.(viewers := s.viewers[id := s.viewers[id].(connected := true)]), ai, detect, running)
      else s
    case PeerGone(id) => Remove(s, id)
    case CandidateFrom(id, blank) => Apply(s, id, blank)
    case ForgetPending => s.(mail := s.mail.(pending := map[]))
  }

  ghost predicate Run(s: Plugin, events: seq<Event>, s': Plugin)
    decreases |events|
  {
    if events == [] then s' == s
    else Possible(s, events[0]) && Run(Step(s, events[0]), events[1..], s')
  }

  // ------------------------------------------- subscriptions are never lost

  /** One of the three handles is this subscription. */
  predicate Holds(h: Subs, x: Sub) {
    x.id != 0 &&
    match x
    case Preview(n) => n == h.video
    case AiHold(n) => n == h.ai
    case Detections(n) => n == h.detect
  }

  /** Every subscription ever obtained is held, or released, and not both. */
  ghost predicate Accounted(h: Subs) {
    && (forall x :: x in h.obtained ==> Holds(h, x) || x in h.released)
    && (forall x :: Holds(h, x) ==> x in h.obtained && x !in h.released)
    && (forall x :: x in h.released ==> x in h.obtained)
    && (h.detect != 0 ==> h.ai != 0)
  }

  ghost predicate TableOk(limit: nat, viewers: map<string, Viewer>, h: Subs) {
    && |viewers| <= limit
    && (viewers != map[] ==> h.video != 0)
    && (h.ai != 0 ==> AnyConnected(viewers))
  }

  ghost predicate SubsOk(s: Plugin) { Accounted(s.subs) && TableOk(s.limit, s.viewers, s.subs) }

  lemma DropKeepsAccounts(h: Subs)
    requires Accounted(h)
    ensures Accounted(DropVideo(h)) && Accounted(DropAi(h))
  {
  }

  lemma GainKeepsAccounts(h: Subs, got: nat, keep: bool)
    requires Accounted(h) && h.video == 0 && Preview(got) !in h.obtained
    ensures Accounted(GainVideo(h, got, keep))
  {
  }

  lemma GainAiKeepsAccounts(h: Subs, ai: nat, detect: nat, keep: bool)
    requires Accounted(h) && h.ai == 0 && (keep ==> ai != 0)
    requires AiHold(ai) !in h.obtained && Detections(detect) !in h.obtained
    ensures Accounted(GainAi(h, ai, detect, keep))
  {
  }

  /** Changed sessions on the same ids, none disconnected, keep the table sound. */
  lemma SameTable(limit: nat, was: map<string, Viewer>, now: map<string, Viewer>, h: Subs)
    requires TableOk(limit, was, h) && now.Keys == was.Keys
    requires forall id :: id in was && was[id].connected ==> now[id].connected
    ensures TableOk(limit, now, h)
  {
  }

  lemma RemoveKeepsSubs(s: Plugin, id: string)
    requires SubsOk(s)
    ensures var t := Remove(s, id);
            && SubsOk(t) && t.subs.obtained == s.subs.obtained && t.limit == s.limit
            && id !in t.viewers && t.mail.peers == s.mail.peers
  {
    hide Accounted;
    DropKeepsAccounts(s.subs);
    DropKeepsAccounts(DropAi(s.subs));
  }

  lemma InsertKeepsSubs(s: Plugin, id: string, o: Offer)
    requires SubsOk(s) && s.subs.video != 0 && |s.viewers| < s.limit && id !in s.viewers
    ensures SubsOk(Insert(s, id, o))
  {
    hide Accounted;
    var v := Insert(s, id, o);
    assert v.viewers.Keys == s.viewers.Keys + {id};
  }

  lemma DescribeKeepsSubs(s: Plugin, id: string, p: nat)
    requires SubsOk(s) && p in s.mail.peers
    ensures SubsOk(Describe(s, id, p))
  {
    hide Accounted, TableOk;
    SameTable(s.limit, s.viewers, Readied(s.viewers, id), s.subs);
  }

  lemma UplinkKeepsSubs(s: Plugin, got: nat, running: bool)
    requires SubsOk(s) && Preview(got) !in s.subs.obtained
    ensures var (t, ok) := StartUplink(s, got, running);
            SubsOk(t) && t.viewers == s.viewers && t.limit == s.limit && (ok ==> t.subs.video != 0)
  {
    hide Accounted;
    if s.subs.video == 0 { GainKeepsAccounts(s.subs, got, running); }
  }

  lemma CreateKeepsSubs(s: Plugin, id: string, o: Offer)
    requires SubsOk(s) && Preview(o.subscription) !in s.subs.obtained
    ensures SubsOk(Create(s, id, o))
  {
    hide SubsOk, Remove, StartUplink;
    if id != "" && o.running {
      RemoveKeepsSubs(s, id);
      var t := Remove(s, id);
      if |t.viewers| < t.limit {
        UplinkKeepsSubs(t, o.subscription, o.stillRunning);
        var (u, ok) := StartUplink(t, o.subscription, o.stillRunning);
        if ok && o.startOk && o.runningAtInsert {
          var v := Insert(u, id, o);
          InsertKeepsSubs(u, id, o);
          RemoveKeepsSubs(v, id);
          DescribeKeepsSubs(if o.droppedMeanwhile then Remove(v, id) else v, id, o.peer);
        }
      }
    }
  }

  lemma ConnectKeepsSubs(s: Plugin, id: string, ai: nat, detect: nat, running: bool)
    requires SubsOk(s) && id in s.viewers && AiHold(ai) !in s.subs.obtained && Detections(detect) !in s.subs.obtained
    ensures SubsOk(StartAi(s.(viewers := s.viewers[id := s.viewers[id].(connected := true)]), ai, detect, running))
  {
    hide Accounted;
    var now := s.viewers[id := s.viewers[id].(connected := true)];
    SameTable(s.limit, s.viewers, now, s.subs);
    if s.subs.ai == 0 { GainAiKeepsAccounts(s.subs, ai, detect, ai != 0 && running && AnyConnected(now)); }
  }

  lemma StepKeepsSubs(s: Plugin, e: Event)
    requires SubsOk(s) && Possible(s, e)
    ensures SubsOk(Step(s, e))
  {
    hide Create, Remove, StartAi, Accounted, TableOk;
    match e
    case OfferFrom(id, o) => CreateKeepsSubs(s, id, o);
    case Connected(id, peer, ai, detect, running) =>
      if id in s.viewers { ConnectKeepsSubs(s, id, ai, detect, running); }
    case PeerGone(id) => RemoveKeepsSubs(s, id);
    case CandidateFrom(id, blank) =>
    case ForgetPending =>
  }

  // ------------------------------------- candidates wait, once and in order

  /** Candidates that have arrived, in order, each naming this viewer or nobody. */
  ghost predicate InOrder(xs: seq<Candidate>, log: seq<string>, who: string) {
    && (forall i :: 0 <= i < |xs| ==> xs[i] < |log| && (log[xs[i]] == who || log[xs[i]] == ""))
    && (forall i, j :: 0 <= i < j < |xs| ==> xs[i] < xs[j])
  }

  ghost predicate Apart(a: seq<Candidate>, b: seq<Candidate>) { forall x :: x in a ==> x !in b }

  /** The places a candidate can be in. */
  datatype Box = Buffered(id: string) | GivenTo(p: nat)

  function Content(m: Mail, box: Box): seq<Candidate> {
    match box
    case Buffered(id) => Waiting(m, id)
    case GivenTo(p) => if p in m.peers then m.peers[p].given else []
  }

  function Owner(m: Mail, box: Box): string {
    match box
    case Buffered(id) => id
    case GivenTo(p) => if p in m.peers then m.peers[p].owner else ""
  }

  /** Each place holds its own viewer's candidates in order of arrival, and no candidate is in two. */
  ghost predicate MailOk(m: Mail) {
    && (forall a :: InOrder(Content(m, a), m.log, Owner(m, a)))
    && (forall a, b :: a != b ==> Apart(Content(m, a), Content(m, b)))
    && (forall p :: p in m.peers && m.peers[p].given != [] ==> m.peers[p].described)
    && Bounded(m.pending)
  }

  ghost predicate Bounded(pending: map<string, seq<Candidate>>) {
    && |pending| <= MAX_PENDING
    && (forall id :: id in pending ==> |pending[id]| <= MAX_PENDING)
  }

  lemma FewerAreBounded(pending: map<string, seq<Candidate>>, id: string)
    requires Bounded(pending)
    ensures Bounded(pending - {id})
  {
  }

  /** A viewer in the table has had its offer answered. */
  ghost predicate Answered(viewers: map<string, Viewer>, peers: map<nat, Peer>) {
    forall id :: id in viewers ==> IsAnswered(viewers[id], peers, id)
  }

  ghost predicate IsAnswered(v: Viewer, peers: map<nat, Peer>, id: string) {
    v.ready && v.peer in peers && peers[v.peer].described && peers[v.peer].owner == id
  }

  ghost predicate CandidatesOk(s: Plugin) { MailOk(s.mail) && Answered(s.viewers, s.mail.peers) }

  /** Emptied places stay in order. */
  lemma FewerKeepOrder(m: Mail, t: Mail)
    requires MailOk(m) && t.log == m.log && forall a :: Owner(t, a) == Owner(m, a)
    requires forall a :: Content(t, a) == Content(m, a) || Content(t, a) == []
    ensures forall a :: InOrder(Content(t, a), t.log, Owner(t, a))
    ensures forall a, b :: a != b ==> Apart(Content(t, a), Content(t, b))
  {
  }

  lemma ForgetKeepsMail(m: Mail, id: string)
    requires MailOk(m)
    ensures MailOk(Forget(m, id))
  {
    hide InOrder, Apart, Bounded;
    var t := Forget(m, id);
    FewerAreBounded(m.pending, id);
    FewerKeepOrder(m, t);
  }

  lemma ForgetAllKeepsMail(m: Mail)
    requires MailOk(m)
    ensures MailOk(m.(pending := map[]))
  {
    hide InOrder, Apart;
    FewerKeepOrder(m, m.(pending := map[]));
  }

  lemma NewPeerKeepsMail(m: Mail, p: nat, id: string)
    requires MailOk(m) && p !in m.peers
    ensures MailOk(m.(peers := m.peers[p := Peer(id, false, [])]))
  {
    var t := m.(peers := m.peers[p := Peer(id, false, [])]);
    forall a ensures Content(t, a) == Content(m, a) {}
  }

  /** The new peer gets what waited for it. */
  lemma FlushKeepsMail(m: Mail, id: string, p: nat)
    requires MailOk(m) && p in m.peers && m.peers[p].given == [] && m.peers[p].owner == id
    ensures MailOk(Flush(m, id, p))
  {
    hide InOrder, Apart, Bounded;
    var t := Flush(m, id, p);
    FewerAreBounded(m.pending, id);
    forall a ensures Content(t, a) == if a == Buffered(id) then [] else Content(m, Source(a, id, p)) {
      FlushContent(m, id, p, a);
    }
    forall a, b | a != b ensures Apart(Content(t, a), Content(t, b)) {
      EmptyIsApart(Content(t, a), Content(t, b));
    }
    forall a ensures InOrder(Content(t, a), t.log, Owner(t, a)) { EmptyIsInOrder(t.log, Owner(t, a)); }
  }

  function Source(a: Box, id: string, p: nat): Box { if a == GivenTo(p) then Buffered(id) else a }

  lemma FlushContent(m: Mail, id: string, p: nat, a: Box)
    requires p in m.peers && m.peers[p].given == []
    ensures Content(Flush(m, id, p), a) == if a == Buffered(id) then [] else Content(m, Source(a, id, p))
  {
  }

  lemma EmptyIsApart(a: seq<Candidate>, b: seq<Candidate>)
    ensures a == [] || b == [] ==> Apart(a, b)
  {
  }

  lemma EmptyIsInOrder(log: seq<string>, who: string)
    ensures InOrder([], log, who)
  {
  }

  /** The newest arrival goes to the end of one place. */
  lemma PutKeepsOrder(m: Mail, t: Mail, box: Box, id: string)
    requires MailOk(m) && t.log == m.log + [id] && (Owner(m, box) == id || id == "")
    requires forall a :: Owner(t, a) == Owner(m, a)
    requires forall a :: Content(t, a) == Content(m, a) || (a == box && Content(t, a) == Content(m, a) + [|m.log|])
    ensures forall a :: InOrder(Content(t, a), t.log, Owner(t, a))
    ensures forall a, b :: a != b ==> Apart(Content(t, a), Content(t, b))
  {
    hide InOrder, Apart;
    forall a, b | a != b ensures Apart(Content(t, a), Content(t, b)) {
      NewestIsApart(Content(m, a), Content(m, b), m.log, Owner(m, a), Owner(m, b));
    }
    forall a ensures InOrder(Content(t, a), t.log, Owner(t, a)) {
      NewestIsLast(Content(m, a), m.log, Owner(m, a), id);
    }
  }

  lemma NewestIsApart(a: seq<Candidate>, b: seq<Candidate>, log: seq<string>, who: string, other: string)
    requires InOrder(a, log, who) && InOrder(b, log, other) && Apart(a, b)
    ensures Apart(a + [|log|], b) && Apart(a, b + [|log|])
  {
  }

  lemma NewestIsLast(a: seq<Candidate>, log: seq<string>, who: string, id: string)
    requires InOrder(a, log, who)
    ensures InOrder(a, log + [id], who) && (who == id || id == "" ==> InOrder(a + [|log|], log + [id], who))
  {
  }

  lemma BufferKeepsMail(m: Mail, id: string)
    requires MailOk(m) && (id in m.pending || |m.pending| < MAX_PENDING)
    ensures MailOk(Buffer(m, id))
  {
    var t := Buffer(m, id);
    PutKeepsOrder(m, t, Buffered(id), id);
  }

  lemma GiveKeepsMail(m: Mail, p: nat, id: string)
    requires MailOk(m) && p in m.peers && m.peers[p].described && (m.peers[p].owner == id || id == "")
    ensures MailOk(Give(m, p, id))
  {
    PutKeepsOrder(m, Give(m, p, id), GivenTo(p), id);
  }

  lemma LoseKeepsMail(m: Mail, id: string)
    requires MailOk(m)
    ensures MailOk(Lose(m, id))
  {
    forall a ensures Content(Lose(m, id), a) == Content(m, a) {}
  }

  lemma RemoveKeepsCandidates(s: Plugin, id: string)
    requires CandidatesOk(s)
    ensures var t := Remove(s, id); CandidatesOk(t) && t.mail.peers == s.mail.peers && id !in t.viewers
  {
    hide MailOk, Unshared;
    ForgetKeepsMail(s.mail, id);
  }

  /** The one session still unanswered is answered, or gone. */
  lemma AnsweredBut(viewers: map<string, Viewer>, peers: map<nat, Peer>, id: string, p: nat, peer: Peer)
    requires Answered(viewers - {id}, peers) && id in viewers && viewers[id].peer == p
    requires peer.described && peer.owner == id
    requires p in peers && !peers[p].described
    ensures Answered(Readied(viewers, id), peers[p := peer])
    ensures Answered(Readied(viewers - {id}, id), peers[p := peer])
  {
    forall k | k in viewers && k != id ensures IsAnswered(viewers[k], peers, k) {
      assert k in viewers - {id};
    }
  }

  lemma FlushPeers(m: Mail, id: string, p: nat)
    requires p in m.peers
    ensures Flush(m, id, p).peers == m.peers[p := Told(m, id, p)]
  {
  }

  /** The viewer that enters the table leaves this call with its offer answered, or leaves the table again. */
  lemma AnswerKeepsCandidates(s: Plugin, id: string, o: Offer)
    requires CandidatesOk(s) && o.peer !in s.mail.peers && id !in s.viewers
    ensures CandidatesOk(Describe(Insert(s, id, o), id, o.peer))
    ensures CandidatesOk(Remove(Insert(s, id, o), id))
    ensures CandidatesOk(Describe(Remove(Insert(s, id, o), id), id, o.peer))
  {
    hide MailOk, Answered, Unshared, Flush, Readied;
    var v := Insert(s, id, o);
    NewPeerKeepsMail(s.mail, o.peer, id);
    ForgetKeepsMail(v.mail, id);
    FlushKeepsMail(v.mail, id, o.peer);
    FlushKeepsMail(Forget(v.mail, id), id, o.peer);
    FlushPeers(v.mail, id, o.peer);
    FlushPeers(Forget(v.mail, id), id, o.peer);
    assert v.viewers - {id} == s.viewers;
    UnusedPeer(s, o.peer, id);
    forall peer: Peer | peer.described && peer.owner == id
      ensures Answered(Readied(v.viewers, id), v.mail.peers[o.peer := peer])
      ensures Answered(Readied(s.viewers, id), v.mail.peers[o.peer := peer])
    {
      AnsweredBut(v.viewers, v.mail.peers, id, o.peer, peer);
    }
  }

  lemma UnusedPeer(s: Plugin, p: nat, id: string)
    requires Answered(s.viewers, s.mail.peers) && p !in s.mail.peers
    ensures Answered(s.viewers, s.mail.peers[p := Peer(id, false, [])])
  {
  }

  lemma CreateKeepsCandidates(s: Plugin, id: string, o: Offer)
    requires CandidatesOk(s) && o.peer !in s.mail.peers
    ensures CandidatesOk(Create(s, id, o))
  {
    hide MailOk, StartUplink, Remove, Describe;
    RemoveKeepsCandidates(s, id);
    var t := Remove(s, id);
    UplinkKeepsRest(t, o.subscription, o.stillRunning);
    var u := StartUplink(t, o.subscription, o.stillRunning).0;
    AnswerKeepsCandidates(u, id, o);
  }

  lemma UplinkKeepsRest(s: Plugin, got: nat, running: bool)
    ensures StartUplink(s, got, running).0 == s.(subs := StartUplink(s, got, running).0.subs)
  {
  }

  lemma ApplyKeepsCandidates(s: Plugin, id: string, blank: bool)
    requires CandidatesOk(s)
    ensures CandidatesOk(Apply(s, id, blank))
  {
    hide MailOk;
    var to := Addressee(s, id);
    LoseKeepsMail(s.mail, id);
    if to.Some? {
      GiveKeepsMail(s.mail, s.viewers[to.value].peer, id);
    } else if |s.mail.pending| < MAX_PENDING {
      BufferKeepsMail(s.mail, id);
    }
  }

  lemma StepKeepsCandidates(s: Plugin, e: Event)
    requires CandidatesOk(s) && Possible(s, e)
    ensures CandidatesOk(Step(s, e))
  {
    hide MailOk, Create, Apply, Remove;
    match e
    case OfferFrom(id, o) => CreateKeepsCandidates(s, id, o);
    case Connected(id, peer, ai, detect, running) =>
    case PeerGone(id) => RemoveKeepsCandidates(s, id);
    case CandidateFrom(id, blank) => ApplyKeepsCandidates(s, id, blank);
    case ForgetPending => ForgetAllKeepsMail(s.mail);
  }

  // ---------------------------------------------------------------- whole runs

  ghost predicate Ok(s: Plugin) { SubsOk(s) && CandidatesOk(s) }

  lemma {:induction false} RunKeepsOk(s: Plugin, events: seq<Event>, s': Plugin)
    requires Ok(s) && Run(s, events, s')
    ensures Ok(s')
    decreases |events|
  {
    hide Step, Possible, SubsOk, CandidatesOk;
    if events != [] {
      StepKeepsSubs(s, events[0]);
      StepKeepsCandidates(s, events[0]);
      RunKeepsOk(Step(s, events[0]), events[1..], s');
    }
  }

  /**
   In every run: no more viewers than the limit, a viewer only with the preview
   subscription held, the detector only for a connected viewer, and every
   subscription ever obtained either in its one handle or given back.
   */
  lemma SubscriptionsAreAccountedFor(limit: nat, detections: bool, events: seq<Event>, s: Plugin)
    requires Run(Init(limit, detections), events, s)
    ensures |s.viewers| <= limit
    ensures s.viewers != map[] ==> s.subs.video != 0
    ensures s.subs.ai != 0 ==> AnyConnected(s.viewers)
    ensures forall x :: x in s.subs.obtained ==> (Holds(s.subs, x) <==> x !in s.subs.released)
  {
    hide Run, CandidatesOk;
    InitIsOk(limit, detections);
    RunKeepsOk(Init(limit, detections), events, s);
    RunKeepsLimit(Init(limit, detections), events, s);
  }

  lemma {:induction false} RunKeepsLimit(s: Plugin, events: seq<Event>, s': Plugin)
    requires Run(s, events, s')
    ensures s'.limit == s.limit
    decreases |events|
  {
    hide Step;
    if events != [] { RunKeepsLimit(Step(s, events[0]), events[1..], s'); }
  }

  lemma InitIsOk(limit: nat, detections: bool)
    ensures Ok(Init(limit, detections))
  {
  }

  /** In every run a peer's candidates came after its description, for its viewer, in order of arrival, none twice. */
  lemma CandidatesArriveInOrder(limit: nat, detections: bool, events: seq<Event>, s: Plugin)
    requires Run(Init(limit, detections), events, s)
    ensures forall p :: p in s.mail.peers ==> ServedInOrder(s.mail, p)
  {
    hide Run, SubsOk, Init;
    InitIsOk(limit, detections);
    RunKeepsOk(Init(limit, detections), events, s);
    forall p | p in s.mail.peers ensures ServedInOrder(s.mail, p) {
      assert Content(s.mail, GivenTo(p)) == s.mail.peers[p].given && Owner(s.mail, GivenTo(p)) == s.mail.peers[p].owner;
    }
  }

  /** Candidates only after the description, in order of arrival, for this viewer, and nowhere else. */
  ghost predicate ServedInOrder(m: Mail, p: nat)
    requires p in m.peers
  {
    && (m.peers[p].given != [] ==> m.peers[p].described)
    && InOrder(m.peers[p].given, m.log, m.peers[p].owner)
    && (forall box :: box != GivenTo(p) ==> Apart(m.peers[p].given, Content(m, box)))
  }

  lemma BuffersStayBounded(limit: nat, detections: bool, events: seq<Event>, s: Plugin)
    requires Run(Init(limit, detections), events, s)
    ensures |s.mail.pending| <= MAX_PENDING
    ensures forall id :: id in s.mail.pending ==> |s.mail.pending[id]| <= MAX_PENDING
  {
    hide Run, SubsOk, Init, InOrder, Apart;
    InitIsOk(limit, detections);
    RunKeepsOk(Init(limit, detections), events, s);
  }

  /** The preview subscription is held and nobody watches. */
  predicate Orphaned(s: Plugin) { s.viewers == map[] && s.subs.video != 0 }

  /**
   In every run, exactly when an offer leaves the preview subscription held without a
   viewer. An offer that gets as far as the uplink needs: nobody else watches, the
   subscription was already orphaned or is taken (again) and stored, and then the peer
   cannot be started or the plugin has been stopped.
   */
  lemma OrphanedExactlyByFailedStart(limit: nat, detections: bool, events: seq<Event>, s: Plugin, id: string, o: Offer)
    requires Run(Init(limit, detections), events, s)
    ensures Orphaned(Create(s, id, o)) <==>
            if id == "" || !o.running || limit == 0 then Orphaned(s)
            else
              && s.viewers.Keys <= {id}
              && (Orphaned(s) || (o.subscription != 0 && o.stillRunning))
              && (!o.startOk || !o.runningAtInsert)
  {
    hide Run, CandidatesOk, Create;
    InitIsOk(limit, detections);
    RunKeepsOk(Init(limit, detections), events, s);
    RunKeepsLimit(Init(limit, detections), events, s);
    OfferOrphans(s, id, o);
  }

  lemma OfferOrphans(s: Plugin, id: string, o: Offer)
    requires SubsOk(s)
    ensures Orphaned(Create(s, id, o)) <==>
            if id == "" || !o.running || s.limit == 0 then Orphaned(s)
            else
              && s.viewers.Keys <= {id}
              && (Orphaned(s) || (o.subscription != 0 && o.stillRunning))
              && (!o.startOk || !o.runningAtInsert)
  {
    hide Accounted, AnyConnected, Flush, Admit;
    var t := Remove(s, id);
    assert t.viewers.Keys == s.viewers.Keys - {id};
    NobodyIsEmpty(s.viewers);
    NobodyIsEmpty(t.viewers);
    AdmitDoesNotOrphan(StartUplink(t, o.subscription, o.stillRunning).0, id, o);
  }

  lemma NobodyIsEmpty(viewers: map<string, Viewer>)
    ensures viewers == map[] <==> viewers.Keys == {}
    ensures |viewers| == |viewers.Keys|
  {
  }

  /** Whoever enters the table is in it afterwards, or took the subscription along. */
  lemma AdmitDoesNotOrphan(s: Plugin, id: string, o: Offer)
    ensures !Orphaned(Admit(s, id, o))
  {
    hide AnyConnected, Flush;
    var v := Insert(s, id, o);
    assert id in v.viewers;
    if v.viewers - {id} != map[] {
      var k :| k in v.viewers - {id};
      assert k in Remove(v, id).viewers;
    }
  }

  /** No other event orphans the subscription, or takes an orphaned one back. */
  lemma OnlyOffersOrphan(limit: nat, detections: bool, events: seq<Event>, s: Plugin, e: Event)
    requires Run(Init(limit, detections), events, s) && Possible(s, e) && !e.OfferFrom?
    ensures Orphaned(Step(s, e)) <==> Orphaned(s)
  {
    hide Run, CandidatesOk;
    InitIsOk(limit, detections);
    RunKeepsOk(Init(limit, detections), events, s);
  }
}
