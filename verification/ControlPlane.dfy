/** One ADS stream as a state machine: subscriptions, sent versions, nonces and writes. */
module ControlPlane {
  import opened KeyedLists
  import opened XdsResources

  /** The type URLs of clusters and listeners, and any other text a client may name; `Other("")` names nothing. */
  datatype TypeUrl = ClusterType | ListenerType | Other(url: string)

  datatype Resources = ClusterResources(clusters: seq<Cluster>) | ListenerResources(listeners: seq<Listener>)

  /** A discovery response. The nonce is rendered in decimal on the wire, and so is the version. */
  datatype Response = Response(typeUrl: TypeUrl, version: nat, nonce: nat, resources: Resources)

  /** The fields of a discovery request the server reads; a buffer that does not decode changes nothing. */
  datatype Request = Request(typeUrl: TypeUrl, versionInfo: string, responseNonce: string, errorCode: Option<int>) | Undecodable

  datatype Stream = Stream(
    subscribed: set<TypeUrl>,
    sent: map<TypeUrl, nat>,
    latest: Option<Snapshot>,
    nonce: nat,
    closed: bool,
    written: seq<Response>)

  predicate Due(s: Stream, typeUrl: TypeUrl, version: nat) {
    typeUrl in s.subscribed && !(typeUrl in s.sent && s.sent[typeUrl] == version)
  }

  function Write(s: Stream, typeUrl: TypeUrl, version: nat, resources: Resources): Stream {
    s.(nonce := s.nonce + 1, written := s.written + [Response(typeUrl, version, s.nonce + 1, resources)],
       sent := s.sent[typeUrl := version])
  }

  function SendClusters(s: Stream, snap: Snapshot): Stream {
    if Due(s, ClusterType, snap.version) then Write(s, ClusterType, snap.version, ClusterResources(snap.clusters)) else s
  }

  function SendListeners(s: Stream, snap: Snapshot): Stream {
    if Due(s, ListenerType, snap.version) then Write(s, ListenerType, snap.version, ListenerResources(snap.listeners)) else s
  }

  function SendSubscribed(s: Stream): Stream {
    if s.closed || s.latest.None? then s else SendListeners(SendClusters(s, s.latest.value), s.latest.value)
  }

  function Opened(current: Option<Snapshot>): Stream {
    Stream({}, map[], current, 0, false, [])
  }

  function Pushed(s: Stream, snap: Snapshot): Stream {
    SendSubscribed(s.(latest := Some(snap)))
  }

  function Requested(s: Stream, r: Request): Stream {
    if r.Undecodable? then s
    else
      var s' := if r.typeUrl != Other("") then s.(subscribed := s.subscribed + {r.typeUrl}) else s;
      if r.versionInfo == "" && r.responseNonce == "" then SendSubscribed(s') else s'
  }

  function ClosedStream(s: Stream): Stream { s.(closed := true) }

  // -------------------------------------------------------------------------
  // What has been written
  // -------------------------------------------------------------------------

  /** The version of the last response of a type. */
  function LastWritten(ws: seq<Response>, t: TypeUrl): Option<nat>
    decreases ws
  {
    if |ws| == 0 then None
    else if ws[|ws| - 1].typeUrl == t then Some(ws[|ws| - 1].version)
    else LastWritten(ws[..|ws| - 1], t)
  }

  /** Each response carries the next nonce, and a later version than the one before it of its type. */
  ghost predicate Ordered(ws: seq<Response>)
    decreases ws
  {
    |ws| > 0 ==>
      var before, r := ws[..|ws| - 1], ws[|ws| - 1];
      Ordered(before) && r.nonce == |ws| && (LastWritten(before, r.typeUrl).Some? ==> LastWritten(before, r.typeUrl).value < r.version)
  }

  lemma {:induction false} LastWrittenIsLast(ws: seq<Response>, t: TypeUrl, i: nat)
    requires Ordered(ws) && i < |ws| && ws[i].typeUrl == t
    ensures LastWritten(ws, t).Some? && ws[i].version <= LastWritten(ws, t).value
    decreases ws
  {
    var n := |ws| - 1;
    if i < n {
      assert ws[..n][i] == ws[i];
      LastWrittenIsLast(ws[..n], t, i);
    }
  }

  /** Nonces strictly increase and no type is written twice at one version. */
  lemma {:induction false} OrderedMeans(ws: seq<Response>, i: nat, j: nat)
    requires Ordered(ws) && i < j < |ws|
    ensures ws[i].nonce == i + 1 && ws[j].nonce == j + 1
    ensures ws[i].typeUrl == ws[j].typeUrl ==> ws[i].version < ws[j].version
    decreases |ws|
  {
    var n := |ws| - 1;
    var before := ws[..n];
    assert before[i] == ws[i];
    if j < n {
      assert before[j] == ws[j];
      OrderedMeans(before, i, j);
    } else {
      NonceAt(before, i);
      if ws[i].typeUrl == ws[j].typeUrl {
        LastWrittenIsLast(before, ws[i].typeUrl, i);
      }
    }
  }

  lemma {:induction false} NonceAt(ws: seq<Response>, i: nat)
    requires Ordered(ws) && i < |ws|
    ensures ws[i].nonce == i + 1
    decreases ws
  {
    if i < |ws| - 1 {
      assert ws[..|ws| - 1][i] == ws[i];
      NonceAt(ws[..|ws| - 1], i);
    }
  }

  // -------------------------------------------------------------------------
  // Safety of every interleaving
  // -------------------------------------------------------------------------

  datatype Event = Push(snap: Snapshot) | Ask(request: Request) | Close

  function Step(s: Stream, e: Event): Stream {
    match e
    case Push(snap) => Pushed(s, snap)
    case Ask(r) => Requested(s, r)
    case Close => ClosedStream(s)
  }

  function Run(s: Stream, es: seq<Event>): Stream
    decreases es
  {
    if |es| == 0 then s else Run(Step(s, es[0]), es[1..])
  }

  /** Pushed versions strictly increase, starting above `floor`. */
  predicate Increasing(floor: int, es: seq<Event>)
    decreases es
  {
    |es| > 0 ==>
      if es[0].Push? then es[0].snap.version > floor && Increasing(es[0].snap.version, es[1..])
      else Increasing(floor, es[1..])
  }

  function Floor(s: Stream): int { if s.latest.Some? then s.latest.value.version else -1 }

  function SentVersion(s: Stream, t: TypeUrl): Option<nat> { if t in s.sent then Some(s.sent[t]) else None }

  /** The responses are in order, `sent` agrees with them, and nothing is newer than the snapshot at hand. */
  ghost predicate StreamInv(s: Stream) {
    && s.nonce == |s.written|
    && Ordered(s.written)
    && (forall t :: LastWritten(s.written, t) == SentVersion(s, t))
    && (forall t :: t in s.sent ==> s.sent[t] <= Floor(s))
  }

  lemma WriteKeeps(s: Stream, typeUrl: TypeUrl, version: nat, resources: Resources)
    requires StreamInv(s) && version <= Floor(s) && (typeUrl in s.sent ==> s.sent[typeUrl] < version)
    ensures StreamInv(Write(s, typeUrl, version, resources))
  {
    var s' := Write(s, typeUrl, version, resources);
    assert s'.written[..|s.written|] == s.written;
    assert LastWritten(s.written, typeUrl) == SentVersion(s, typeUrl);
    forall t ensures LastWritten(s'.written, t) == SentVersion(s', t) {
      assert LastWritten(s.written, t) == SentVersion(s, t);
    }
  }

  lemma ClustersKeep(s: Stream)
    requires StreamInv(s) && s.latest.Some?
    ensures StreamInv(SendClusters(s, s.latest.value))
    ensures ClusterType in s.subscribed ==> LastWritten(SendClusters(s, s.latest.value).written, ClusterType) == Some(s.latest.value.version)
  {
    var snap := s.latest.value;
    if Due(s, ClusterType, snap.version) {
      WriteKeeps(s, ClusterType, snap.version, ClusterResources(snap.clusters));
    }
    var mid := SendClusters(s, snap);
    assert LastWritten(mid.written, ClusterType) == SentVersion(mid, ClusterType);
  }

  lemma ListenersKeep(s: Stream)
    requires StreamInv(s) && s.latest.Some?
    ensures StreamInv(SendListeners(s, s.latest.value))
    ensures ListenerType in s.subscribed ==> LastWritten(SendListeners(s, s.latest.value).written, ListenerType) == Some(s.latest.value.version)
    ensures LastWritten(SendListeners(s, s.latest.value).written, ClusterType) == LastWritten(s.written, ClusterType)
  {
    var snap := s.latest.value;
    if Due(s, ListenerType, snap.version) {
      WriteKeeps(s, ListenerType, snap.version, ListenerResources(snap.listeners));
      assert Write(s, ListenerType, snap.version, ListenerResources(snap.listeners)).written[..|s.written|] == s.written;
    }
    var next := SendListeners(s, snap);
    assert LastWritten(next.written, ListenerType) == SentVersion(next, ListenerType);
  }

  /** A response that carries the snapshot's own resources of its type. */
  predicate Carries(r: Response, snap: Snapshot) {
    && r.version == snap.version
    && match r.typeUrl
       case ClusterType => r.resources == ClusterResources(snap.clusters)
       case ListenerType => r.resources == ListenerResources(snap.listeners)
       case Other(_) => false
  }

  /** The i-th response is a listener response on top of clusters of its own version: the last cluster response before it. */
  predicate FollowsClusters(ws: seq<Response>, i: int)
    requires 0 <= i < |ws|
  {
    LastWritten(ws[..i], ClusterType) == Some(ws[i].version)
  }

  /** From `s` to `s'`: nothing written is lost; each new response is of a subscribed type and carries the latest snapshot;
      new listener responses follow their clusters. */
  ghost predicate SentSafe(s: Stream, s': Stream) {
    && s.written <= s'.written
    && (s'.written != s.written ==> s'.latest.Some? && !s.closed)
    && (forall i :: |s.written| <= i < |s'.written| ==>
          && s'.written[i].typeUrl in s'.subscribed
          && Carries(s'.written[i], s'.latest.value)
          && (s'.written[i].typeUrl == ListenerType && ClusterType in s'.subscribed ==> FollowsClusters(s'.written, i)))
  }

  /** Every subscribed resource type was last written at the latest version. */
  predicate UpToDate(s: Stream) {
    s.latest.Some? ==>
      forall t :: t in {ClusterType, ListenerType} && t in s.subscribed ==> LastWritten(s.written, t) == Some(s.latest.value.version)
  }

  lemma ClustersSent(s: Stream)
    requires s.latest.Some? && !s.closed
    ensures SentSafe(s, SendClusters(s, s.latest.value))
  {
  }

  lemma ListenersSent(s: Stream)
    requires s.latest.Some? && !s.closed
    requires ClusterType in s.subscribed ==> LastWritten(s.written, ClusterType) == Some(s.latest.value.version)
    ensures SentSafe(s, SendListeners(s, s.latest.value))
  {
    var next := SendListeners(s, s.latest.value);
    assert next.written[..|s.written|] == s.written;
  }

  lemma SafeTwice(s: Stream, mid: Stream, s': Stream)
    requires SentSafe(s, mid) && SentSafe(mid, s')
    requires mid == s.(nonce := mid.nonce, written := mid.written, sent := mid.sent)
    requires s' == mid.(nonce := s'.nonce, written := s'.written, sent := s'.sent)
    ensures SentSafe(s, s')
  {
    forall i | |s.written| <= i < |s'.written|
      ensures && s'.written[i].typeUrl in s'.subscribed
              && Carries(s'.written[i], s'.latest.value)
              && (s'.written[i].typeUrl == ListenerType && ClusterType in s'.subscribed ==> FollowsClusters(s'.written, i))
    {
      if i < |mid.written| {
        assert s'.written[i] == mid.written[i] && s'.written[..i] == mid.written[..i];
      }
    }
  }

  /** An open stream with a snapshot at hand. */
  predicate CanSend(s: Stream) { !s.closed && s.latest.Some? }

  lemma SendIsUpToDate(s: Stream)
    requires StreamInv(s) && CanSend(s)
    ensures StreamInv(SendSubscribed(s)) && UpToDate(SendSubscribed(s))
  {
    var mid := SendClusters(s, s.latest.value);
    ClustersKeep(s);
    ListenersKeep(mid);
  }

  lemma SendIsSafe(s: Stream)
    requires StreamInv(s) && CanSend(s)
    ensures SentSafe(s, SendSubscribed(s))
  {
    var mid := SendClusters(s, s.latest.value);
    assert ClusterType in s.subscribed ==> LastWritten(mid.written, ClusterType) == Some(s.latest.value.version) by {
      ClustersKeep(s);
    }
    ClustersSent(s);
    ListenersSent(mid);
    SafeTwice(s, mid, SendSubscribed(s));
  }

  /** Sending writes each subscribed type up to the latest version, clusters before listeners, and nothing twice. */
  lemma SendKeeps(s: Stream)
    requires StreamInv(s)
    ensures StreamInv(SendSubscribed(s)) && SentSafe(s, SendSubscribed(s))
    ensures !s.closed ==> UpToDate(SendSubscribed(s))
  {
    if CanSend(s) {
      SendIsUpToDate(s);
      SendIsSafe(s);
    }
  }

  /** What one event guarantees: what `SentSafe` says, and an open stream is up to date after a push. */
  ghost predicate StepSafe(s: Stream, e: Event) {
    && SentSafe(s, Step(s, e))
    && (e.Push? && !s.closed ==> Step(s, e).latest == Some(e.snap) && UpToDate(Step(s, e)))
  }

  lemma StepKeeps(s: Stream, e: Event)
    requires StreamInv(s) && (e.Push? ==> e.snap.version > Floor(s))
    ensures StreamInv(Step(s, e)) && StepSafe(s, e)
  {
    match e
    case Push(snap) =>
      var s0 := s.(latest := Some(snap));
      SameSent(s, s0);
      SendKeeps(s0);
    case Ask(r) =>
      if !r.Undecodable? {
        var s0 := if r.typeUrl != Other("") then s.(subscribed := s.subscribed + {r.typeUrl}) else s;
        SameSent(s, s0);
        SendKeeps(s0);
      }
    case Close =>
      SameSent(s, ClosedStream(s));
  }

  lemma SameSent(s: Stream, s': Stream)
    requires StreamInv(s) && s'.nonce == s.nonce && s'.written == s.written && s'.sent == s.sent && Floor(s) <= Floor(s')
    ensures StreamInv(s')
  {
    forall t ensures LastWritten(s'.written, t) == SentVersion(s', t) {
      assert LastWritten(s.written, t) == SentVersion(s, t);
    }
  }

  lemma FloorAfter(s: Stream, e: Event)
    ensures Floor(Step(s, e)) == if e.Push? then e.snap.version else Floor(s)
  {
  }

  ghost predicate RunSafe(s: Stream, es: seq<Event>)
    decreases es
  {
    |es| > 0 ==> StepSafe(s, es[0]) && RunSafe(Step(s, es[0]), es[1..])
  }

  /** Over any interleaving of requests, pushes with increasing versions and closing: nonces count the writes, no type is
      written twice at one version, listeners follow their clusters, each push on an open stream brings every subscribed
      type up to date, and a closed stream writes nothing more. */
  lemma {:induction false} StreamIsSafe(s: Stream, es: seq<Event>)
    requires StreamInv(s) && Increasing(Floor(s), es)
    ensures StreamInv(Run(s, es)) && RunSafe(s, es)
    decreases es
  {
    if |es| > 0 {
      var next := Step(s, es[0]);
      FloorAfter(s, es[0]);
      assert StreamInv(next) && StepSafe(s, es[0]) by { StepKeeps(s, es[0]); }
      StreamIsSafe(next, es[1..]);
    }
  }

  /** The same from the opening of the stream, read off the responses themselves. */
  lemma OpenedStreamIsSafe(current: Option<Snapshot>, es: seq<Event>)
    requires Increasing(Floor(Opened(current)), es)
    ensures RunSafe(Opened(current), es)
    ensures var ws := Run(Opened(current), es).written;
            forall i, j :: 0 <= i < j < |ws| ==>
              ws[i].nonce < ws[j].nonce && (ws[i].typeUrl == ws[j].typeUrl ==> ws[i].version < ws[j].version)
  {
    StreamIsSafe(Opened(current), es);
    var ws := Run(Opened(current), es).written;
    forall i, j | 0 <= i < j < |ws|
      ensures ws[i].nonce < ws[j].nonce && (ws[i].typeUrl == ws[j].typeUrl ==> ws[i].version < ws[j].version)
    {
      OrderedMeans(ws, i, j);
    }
  }

  /** Some event pushed `snap`, or it was there at the opening. */
  predicate Known(snap: Snapshot, current: Option<Snapshot>, es: seq<Event>) {
    current == Some(snap) || exists i :: 0 <= i < |es| && es[i] == Push(snap)
  }

  predicate Asked(t: TypeUrl, es: seq<Event>) {
    exists i :: 0 <= i < |es| && Subscribes(es[i], t)
  }

  /** A response to something asked for, with the resources of a snapshot the stream was given. */
  ghost predicate Warranted(r: Response, current: Option<Snapshot>, es: seq<Event>) {
    Asked(r.typeUrl, es) && exists snap :: Known(snap, current, es) && Carries(r, snap)
  }

  /** What a stream has come to, read off the events. */
  ghost predicate ComesFrom(s: Stream, current: Option<Snapshot>, es: seq<Event>) {
    && (forall t :: t in s.subscribed ==> Asked(t, es))
    && (s.latest.Some? ==> Known(s.latest.value, current, es))
    && (forall r :: r in s.written ==> Warranted(r, current, es))
    && (s.closed ==> Close in es)
  }

  lemma MoreKnown(es: seq<Event>, e: Event, current: Option<Snapshot>)
    ensures forall snap :: Known(snap, current, es + [e]) <==> Known(snap, current, es) || e == Push(snap)
    ensures forall t :: Asked(t, es + [e]) <==> Asked(t, es) || Subscribes(e, t)
  {
    var more := es + [e];
    assert more[|es|] == e && forall i :: 0 <= i < |es| ==> more[i] == es[i];
    forall snap | Known(snap, current, es) ensures Known(snap, current, more) {
      if i :| 0 <= i < |es| && es[i] == Push(snap) {
        assert more[i] == Push(snap);
      }
    }
    forall t | Asked(t, es) ensures Asked(t, more) {
      var i :| 0 <= i < |es| && Subscribes(es[i], t);
      assert Subscribes(more[i], t);
    }
  }

  lemma SendComesFrom(s: Stream, current: Option<Snapshot>, es: seq<Event>)
    requires StreamInv(s) && ComesFrom(s, current, es)
    ensures ComesFrom(SendSubscribed(s), current, es)
  {
    SendKeeps(s);
    var s' := SendSubscribed(s);
    forall r | r in s'.written ensures Warranted(r, current, es) {
      var i :| 0 <= i < |s'.written| && s'.written[i] == r;
      if i < |s.written| {
        assert r == s.written[i];
      }
    }
  }

  lemma StepComesFrom(s: Stream, e: Event, current: Option<Snapshot>, es: seq<Event>)
    requires StreamInv(s) && ComesFrom(s, current, es) && (e.Push? ==> e.snap.version > Floor(s))
    ensures ComesFrom(Step(s, e), current, es + [e])
  {
    MoreKnown(es, e, current);
    assert ComesFrom(s, current, es + [e]);
    match e
    case Push(snap) =>
      SameSent(s, s.(latest := Some(snap)));
      SendComesFrom(s.(latest := Some(snap)), current, es + [e]);
    case Ask(r) =>
      if r.Request? {
        var s0 := if r.typeUrl != Other("") then s.(subscribed := s.subscribed + {r.typeUrl}) else s;
        SameSent(s, s0);
        SendComesFrom(s0, current, es + [e]);
      }
    case Close =>
  }

  lemma {:induction false} RunSnoc(s: Stream, es: seq<Event>, e: Event)
    ensures Run(s, es + [e]) == Step(Run(s, es), e)
    decreases es
  {
    if |es| == 0 {
      assert es + [e] == [e] && [e][1..] == [];
    } else {
      assert (es + [e])[1..] == es[1..] + [e];
      RunSnoc(Step(s, es[0]), es[1..], e);
    }
  }

  /** The versions pushed rise to the end: a prefix rises too, and what comes next is above the floor it leaves. */
  lemma {:induction false} IncreasingSnoc(s: Stream, es: seq<Event>, e: Event)
    requires Increasing(Floor(s), es + [e])
    ensures Increasing(Floor(s), es) && (e.Push? ==> e.snap.version > Floor(Run(s, es)))
    decreases es
  {
    if |es| == 0 {
      assert es + [e] == [e];
    } else {
      assert (es + [e])[1..] == es[1..] + [e];
      FloorAfter(s, es[0]);
      IncreasingSnoc(Step(s, es[0]), es[1..], e);
    }
  }

  /** Over any interleaving from the opening: every response is of a type the client has asked for, and carries the version
      and the resources of a snapshot that was at hand then or has been pushed since; and only a close closes. */
  lemma {:induction false} ResponsesAreWarranted(current: Option<Snapshot>, es: seq<Event>)
    requires Increasing(Floor(Opened(current)), es)
    ensures ComesFrom(Run(Opened(current), es), current, es)
    decreases |es|
  {
    if |es| > 0 {
      var before, e := es[..|es| - 1], es[|es| - 1];
      assert es == before + [e];
      IncreasingSnoc(Opened(current), before, e);
      ResponsesAreWarranted(current, before);
      StreamIsSafe(Opened(current), before);
      StepComesFrom(Run(Opened(current), before), e, current, before);
      RunSnoc(Opened(current), before, e);
    }
  }

  /** A push, or a request that comes without version and nonce. */
  predicate Serves(e: Event) {
    e.Push? || (e.Ask? && e.request.Request? && e.request.versionInfo == "" && e.request.responseNonce == "")
  }

  /** One of these comes before the stream closes. */
  predicate ServedBy(es: seq<Event>)
    decreases es
  {
    |es| > 0 && !es[0].Close? && (Serves(es[0]) || ServedBy(es[1..]))
  }

  predicate Subscribes(e: Event, t: TypeUrl) { e.Ask? && e.request.Request? && e.request.typeUrl == t }

  /** An open stream that has a snapshot at hand and has written nothing of `t`. */
  predicate Unserved(s: Stream, t: TypeUrl) {
    !s.closed && s.latest.Some? && (t.ClusterType? || t.ListenerType?) && t !in s.sent
  }

  lemma UnservedStep(s: Stream, t: TypeUrl, e: Event)
    requires Unserved(s, t) && (t in s.subscribed || Subscribes(e, t)) && !e.Close?
    ensures t in Step(s, e).sent <==> Serves(e)
    ensures t in Step(s, e).subscribed && !Step(s, e).closed && Step(s, e).latest.Some?
  {
  }

  lemma {:induction false} SentStaysSent(s: Stream, t: TypeUrl, es: seq<Event>)
    requires t in s.sent
    ensures t in Run(s, es).sent
    decreases es
  {
    if |es| > 0 {
      SentStaysSent(Step(s, es[0]), t, es[1..]);
    }
  }

  lemma {:induction false} ClosedStaysUnserved(s: Stream, t: TypeUrl, es: seq<Event>)
    requires s.closed && t !in s.sent
    ensures t !in Run(s, es).sent
    decreases es
  {
    if |es| > 0 {
      ClosedStaysUnserved(Step(s, es[0]), t, es[1..]);
    }
  }

  lemma {:induction false} SentIffServed(s: Stream, t: TypeUrl, es: seq<Event>)
    requires Unserved(s, t) && (t in s.subscribed || (|es| > 0 && Subscribes(es[0], t)))
    ensures t in Run(s, es).sent <==> ServedBy(es)
    decreases es
  {
    if |es| > 0 {
      var next := Step(s, es[0]);
      if es[0].Close? {
        ClosedStaysUnserved(next, t, es[1..]);
      } else {
        UnservedStep(s, t, es[0]);
        if Serves(es[0]) {
          SentStaysSent(next, t, es[1..]);
        } else {
          SentIffServed(next, t, es[1..]);
        }
      }
    }
  }

  /** A type subscribed to is written, in whatever follows, exactly when a push or a request without version and nonce comes
      before the stream closes: a subscription made in an acknowledgement waits for it. */
  lemma SubscriptionServed(s: Stream, t: TypeUrl, es: seq<Event>)
    requires StreamInv(s) && Increasing(Floor(s), es)
    requires Unserved(s, t) && (t in s.subscribed || (|es| > 0 && Subscribes(es[0], t)))
    ensures LastWritten(Run(s, es).written, t).Some? <==> ServedBy(es)
  {
    StreamIsSafe(s, es);
    SentIffServed(s, t, es);
    assert LastWritten(Run(s, es).written, t) == SentVersion(Run(s, es), t);
  }
}

/** The snapshot cache, the streams watching it and the server that feeds it. */
module XdsServer {
  import opened KeyedLists
  import opened RouteTypes
  import opened BusSpec
  import opened XdsResources
  import opened ControlPlane

  class AdsStream {
    var subscribed: set<TypeUrl>
    var sent: map<TypeUrl, nat>
    var latest: Option<Snapshot>
    var nonce: nat
    var closed: bool
    var written: seq<Response>

    function State(): Stream
      reads this
    {
      Stream(subscribed, sent, latest, nonce, closed, written)
    }

    constructor (current: Option<Snapshot>)
      ensures State() == Opened(current)
    {
      subscribed, sent, latest, nonce, closed, written := {}, map[], current, 0, false, [];
    }

    method SendSnapshotForTypes(snap: Snapshot)
      modifies this
      ensures State() == SendListeners(SendClusters(old(State()), snap), snap)
    {
      if ClusterType in subscribed && !(ClusterType in sent && sent[ClusterType] == snap.version) {
        nonce := nonce + 1;
        written := written + [Response(ClusterType, snap.version, nonce, ClusterResources(snap.clusters))];
        sent := sent[ClusterType := snap.version];
      }
      if ListenerType in subscribed && !(ListenerType in sent && sent[ListenerType] == snap.version) {
        nonce := nonce + 1;
        written := written + [Response(ListenerType, snap.version, nonce, ListenerResources(snap.listeners))];
        sent := sent[ListenerType := snap.version];
      }
    }

    method Send()
      modifies this
      ensures State() == SendSubscribed(old(State()))
    {
      if !closed && latest.Some? {
        SendSnapshotForTypes(latest.value);
      }
    }

    method OnSnapshot(snap: Snapshot)
      modifies this
      ensures State() == Pushed(old(State()), snap)
    {
      latest := Some(snap);
      Send();
    }

    method OnData(r: Request)
      modifies this
      ensures State() == Requested(old(State()), r)
    {
      if r.Undecodable? {
        return;
      }
      if r.typeUrl != Other("") {
        subscribed := subscribed + {r.typeUrl};
      }
      if r.versionInfo == "" && r.responseNonce == "" {
        Send();
      }
    }

    method OnEnd()
      modifies this
      ensures State() == ClosedStream(old(State()))
    {
      closed := true;
    }
  }

  class SnapshotCache {
    var current: Option<Snapshot>
    /** Watching streams in subscription order, without repetition. */
    var watchers: seq<AdsStream>

    ghost predicate Valid()
      reads this
    {
      forall i, j :: 0 <= i < j < |watchers| ==> watchers[i] != watchers[j]
    }

    constructor ()
      ensures Valid() && current == None && watchers == []
    {
      current, watchers := None, [];
    }

    method Watch(w: AdsStream)
      requires Valid()
      modifies this
      ensures Valid() && current == old(current)
      ensures watchers == if w in old(watchers) then old(watchers) else old(watchers) + [w]
    {
      if w !in watchers {
        watchers := watchers + [w];
      }
    }

    method Unwatch(w: AdsStream)
      requires Valid()
      modifies this
      ensures Valid() && current == old(current)
      ensures w !in watchers && forall v :: v in watchers <==> v in old(watchers) && v != w
      ensures w !in old(watchers) ==> watchers == old(watchers)
    {
      for i := 0 to |watchers|
        invariant watchers == old(watchers) && Valid() && w !in watchers[..i]
      {
        if watchers[i] == w {
          ghost var was := watchers;
          watchers := watchers[..i] + watchers[i + 1..];
          assert was == was[..i] + [w] + was[i + 1..];
          return;
        }
      }
    }

    method SetSnapshot(snap: Snapshot)
      requires Valid()
      modifies this, watchers
      ensures Valid() && current == Some(snap) && watchers == old(watchers)
      ensures forall w :: w in watchers ==> w.State() == Pushed(old(w.State()), snap)
    {
      current := Some(snap);
      for i := 0 to |watchers|
        invariant Valid() && current == Some(snap) && watchers == old(watchers)
        invariant forall j :: 0 <= j < i ==> watchers[j].State() == Pushed(old(watchers[j].State()), snap)
        invariant forall j :: i <= j < |watchers| ==> watchers[j].State() == old(watchers[j].State())
      {
        watchers[i].OnSnapshot(snap);
      }
    }
  }

  /** A stream starts from the cached snapshot and watches the cache until it ends. */
  method HandleStream(cache: SnapshotCache) returns (w: AdsStream)
    requires cache.Valid()
    modifies cache
    ensures fresh(w) && w.State() == Opened(cache.current)
    ensures cache.Valid() && cache.current == old(cache.current) && cache.watchers == old(cache.watchers) + [w]
  {
    w := new AdsStream(cache.current);
    cache.Watch(w);
  }

  method EndStream(cache: SnapshotCache, w: AdsStream)
    requires cache.Valid()
    modifies cache, w
    ensures w.State() == ClosedStream(old(w.State()))
    ensures cache.Valid() && cache.current == old(cache.current)
    ensures w !in cache.watchers && forall v :: v in cache.watchers <==> v in old(cache.watchers) && v != w
  {
    w.OnEnd();
    cache.Unwatch(w);
  }

  /** What the orchestrator sends; `None` stands for a configuration that does not parse. */
  datatype RouteConfig = RouteConfig(local: seq<DataChannel>, internal: seq<InternalRoute>, ports: Option<Allocations>)

  /** The older derivation of the port map from the routes themselves. */
  function LocalPorts(chs: seq<DataChannel>, ports: Allocations): Allocations
    decreases chs
  {
    if |chs| == 0 then ports
    else LocalPorts(chs[1..], if Ported(chs[0]) then ports[chs[0].name := chs[0].envoyPort.value] else ports)
  }

  function EgressPorts(rs: seq<InternalRoute>, ports: Allocations): Allocations
    decreases rs
  {
    if |rs| == 0 then ports
    else EgressPorts(rs[1..], if Ported(rs[0].ch) then ports[EgressKeyOf(rs[0]) := rs[0].ch.envoyPort.value] else ports)
  }

  function PortsOf(c: RouteConfig): Allocations {
    if c.ports.Some? then c.ports.value else EgressPorts(c.internal, LocalPorts(c.local, map[]))
  }

  predicate NamesLocal(ch: DataChannel, key: string) { Ported(ch) && ch.name == key }

  predicate NamesEgress(r: InternalRoute, key: string) { Ported(r.ch) && EgressKeyOf(r) == key }

  predicate NoLocal(chs: seq<DataChannel>, key: string) { forall j :: 0 <= j < |chs| ==> !NamesLocal(chs[j], key) }

  predicate NoEgress(rs: seq<InternalRoute>, key: string) { forall j :: 0 <= j < |rs| ==> !NamesEgress(rs[j], key) }

  /** The last ported channel, or learned route, that names `key`. */
  predicate LastLocal(chs: seq<DataChannel>, key: string, i: int) {
    0 <= i < |chs| && NamesLocal(chs[i], key) && NoLocal(chs[i + 1..], key)
  }

  predicate LastEgress(rs: seq<InternalRoute>, key: string, i: int) {
    0 <= i < |rs| && NamesEgress(rs[i], key) && NoEgress(rs[i + 1..], key)
  }

  lemma {:induction false} LocalPort(chs: seq<DataChannel>, ports: Allocations, key: string, i: int)
    ensures NoLocal(chs, key) ==> (key in LocalPorts(chs, ports) <==> key in ports) && (key in ports ==> LocalPorts(chs, ports)[key] == ports[key])
    ensures LastLocal(chs, key, i) ==> key in LocalPorts(chs, ports) && Some(LocalPorts(chs, ports)[key]) == chs[i].envoyPort
    decreases chs
  {
    if |chs| > 0 {
      LocalPort(chs[1..], if Ported(chs[0]) then ports[chs[0].name := chs[0].envoyPort.value] else ports, key, i - 1);
      if 0 < i < |chs| {
        assert chs[1..][i - 1] == chs[i] && chs[1..][i..] == chs[i + 1..];
      }
    }
  }

  lemma {:induction false} EgressPort(rs: seq<InternalRoute>, ports: Allocations, key: string, i: int)
    ensures NoEgress(rs, key) ==> (key in EgressPorts(rs, ports) <==> key in ports) && (key in ports ==> EgressPorts(rs, ports)[key] == ports[key])
    ensures LastEgress(rs, key, i) ==> key in EgressPorts(rs, ports) && Some(EgressPorts(rs, ports)[key]) == rs[i].ch.envoyPort
    decreases rs
  {
    if |rs| > 0 {
      EgressPort(rs[1..], if Ported(rs[0].ch) then ports[EgressKeyOf(rs[0]) := rs[0].ch.envoyPort.value] else ports, key, i - 1);
      if 0 < i < |rs| {
        assert rs[1..][i - 1] == rs[i] && rs[1..][i..] == rs[i + 1..];
      }
    }
  }

  /** The derived map: a key named by ported learned routes has the port of the last of them; one named by ported local
      channels alone, of the last of those; any other key has none. */
  lemma DerivedPort(c: RouteConfig, key: string, i: int)
    requires c.ports.None?
    ensures LastEgress(c.internal, key, i) ==> key in PortsOf(c) && Some(PortsOf(c)[key]) == c.internal[i].ch.envoyPort
    ensures NoEgress(c.internal, key) && LastLocal(c.local, key, i) ==> key in PortsOf(c) && Some(PortsOf(c)[key]) == c.local[i].envoyPort
    ensures NoEgress(c.internal, key) && NoLocal(c.local, key) ==> key !in PortsOf(c)
  {
    LocalPort(c.local, map[], key, i);
    EgressPort(c.internal, LocalPorts(c.local, map[]), key, i);
  }

  class EnvoyRpcServer {
    const cache: SnapshotCache
    const res: Resolver
    const bind: string
    var config: RouteConfig
    var versionCounter: nat

    constructor (cache: SnapshotCache, res: Resolver, bind: string)
      ensures this.cache == cache && this.res == res && this.bind == bind && versionCounter == 0
    {
      this.cache, this.res, this.bind := cache, res, bind;
      config, versionCounter := RouteConfig([], [], None), 0;
    }

    /** Every watching stream is in order and has seen no version beyond the counter. */
    ghost predicate Valid()
      reads this, cache, cache.watchers
    {
      && cache.Valid()
      && (cache.current.Some? ==> cache.current.value.version <= versionCounter)
      && forall w :: w in cache.watchers ==> StreamInv(w.State()) && Floor(w.State()) <= versionCounter
    }

    method DerivePorts(c: RouteConfig) returns (ports: Allocations)
      ensures ports == PortsOf(c)
      ensures c.ports.Some? ==> ports == c.ports.value
    {
      if c.ports.Some? {
        return c.ports.value;
      }
      ports := map[];
      for i := 0 to |c.local|
        invariant LocalPorts(c.local[i..], ports) == LocalPorts(c.local, map[])
      {
        assert c.local[i..][1..] == c.local[i + 1..];
        if Ported(c.local[i]) {
          ports := ports[c.local[i].name := c.local[i].envoyPort.value];
        }
      }
      for i := 0 to |c.internal|
        invariant EgressPorts(c.internal[i..], ports) == PortsOf(c)
      {
        assert c.internal[i..][1..] == c.internal[i + 1..];
        if Ported(c.internal[i].ch) {
          ports := ports[EgressKeyOf(c.internal[i]) := c.internal[i].ch.envoyPort.value];
        }
      }
    }

    /** Each accepted update is pushed to every watching stream at the next version, which is new to all of them. */
    method UpdateRoutes(c: Option<RouteConfig>) returns (ok: bool)
      requires Valid()
      modifies this, cache, cache.watchers
      ensures Valid() && cache.watchers == old(cache.watchers) && ok == c.Some?
      ensures ok ==> forall w :: w in cache.watchers ==>
                SentSafe(old(w.State()), w.State()) && (!w.closed ==> UpToDate(w.State()))
      ensures !ok ==> versionCounter == old(versionCounter) && config == old(config) && cache.current == old(cache.current)
                      && forall w :: w in cache.watchers ==> w.State() == old(w.State())
      ensures ok ==>
                && config == c.value && versionCounter == old(versionCounter) + 1
                && var ps := Pairs(res, c.value.local, c.value.internal, PortsOf(c.value), bind);
                   var snap := Snapshot(versionCounter, Listeners(ps), Clusters(ps));
                   cache.current == Some(snap) && forall w :: w in cache.watchers ==> w.State() == Pushed(old(w.State()), snap)
    {
      if c.None? {
        return false;
      }
      config := c.value;
      var ports := DerivePorts(c.value);
      versionCounter := versionCounter + 1;
      var snap := BuildXdsSnapshot(res, c.value.local, c.value.internal, ports, bind, versionCounter);
      cache.SetSnapshot(snap);
      ok := true;
      forall w | w in cache.watchers
        ensures && StreamInv(w.State()) && Floor(w.State()) <= versionCounter
                && SentSafe(old(w.State()), w.State()) && (!w.closed ==> UpToDate(w.State()))
      {
        StepKeeps(old(w.State()), Push(snap));
        FloorAfter(old(w.State()), Push(snap));
      }
    }
  }
}
