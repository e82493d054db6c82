/**
 * The PACS plugin facade (QtDcmAPHP): the registry of running move requests,
 * the translation of a mover's events into the plugin's moveProgress and
 * pathToData signals, the cached-data query, and the registration of the
 * remote server in the preferences' server list.
 *
 * A mover is represented by its configuration (MoveJob). Starting a mover,
 * asking it to stop and the signals the plugin emits are recorded in
 * sequences. The preferences' server list is a field of the plugin; the
 * manager whose current server moveRequest sets is a collaborator object.
 */
module DcmAphp {
  import opened DcmCommon
  import opened DcmManager

  /** What a running mover reports. */
  datatype MoveEvent =
    | SerieMoved(path: string, serieUid: string, number: int)
    | MoveInProgress(message: string)
    | MoveFailed(reason: string)

  /** What the plugin emits. */
  datatype Signal =
    | MoveProgress(requestId: int, status: int)
    | PathToData(requestId: int, path: string)

  /** The signals emitted for one event of the mover registered under `requestId`. */
  function Translate(requestId: int, e: MoveEvent): (sigs: seq<Signal>)
    ensures 1 <= |sigs| <= 2 && sigs[0].MoveProgress?
    ensures forall s :: s in sigs ==> s.requestId == requestId
    ensures sigs[0].status == STATUS_OK <==> e.SerieMoved?
    ensures sigs[0].status == STATUS_PENDING <==> e.MoveInProgress?
    ensures sigs[0].status == STATUS_KO <==> e.MoveFailed?
    ensures |sigs| == 2 <==> e.SerieMoved?
    ensures |sigs| == 2 ==> sigs[1] == PathToData(requestId, e.path)
  {
    match e
    case SerieMoved(path, _, _) => [MoveProgress(requestId, STATUS_OK), PathToData(requestId, path)]
    case MoveInProgress(_) => [MoveProgress(requestId, STATUS_PENDING)]
    case MoveFailed(_) => [MoveProgress(requestId, STATUS_KO)]
  }

  /** The signals emitted for a run of events, in order. */
  function TranslateAll(requestId: int, es: seq<MoveEvent>): seq<Signal> {
    if es == [] then [] else TranslateAll(requestId, es[..|es| - 1]) + Translate(requestId, es[|es| - 1])
  }

  /** The paths of the series moved, in order. */
  function MovedPaths(es: seq<MoveEvent>): seq<string> {
    if es == [] then []
    else MovedPaths(es[..|es| - 1]) + (if es[|es| - 1].SerieMoved? then [es[|es| - 1].path] else [])
  }

  /** The paths of the pathToData signals, in order. */
  function SignalledPaths(sigs: seq<Signal>): seq<string> {
    if sigs == [] then []
    else SignalledPaths(sigs[..|sigs| - 1]) + (if sigs[|sigs| - 1].PathToData? then [sigs[|sigs| - 1].path] else [])
  }

  /** The statuses of the moveProgress signals, in order. */
  function SignalledStatuses(sigs: seq<Signal>): seq<int> {
    if sigs == [] then []
    else SignalledStatuses(sigs[..|sigs| - 1]) + (if sigs[|sigs| - 1].MoveProgress? then [sigs[|sigs| - 1].status] else [])
  }

  /** The status an event reports. */
  function StatusOf(e: MoveEvent): int {
    match e
    case SerieMoved(_, _, _) => STATUS_OK
    case MoveInProgress(_) => STATUS_PENDING
    case MoveFailed(_) => STATUS_KO
  }

  /** The statuses of a run of events, one per event, in order. */
  function EventStatuses(es: seq<MoveEvent>): (r: seq<int>)
    ensures |r| == |es|
  {
    if es == [] then [] else EventStatuses(es[..|es| - 1]) + [StatusOf(es[|es| - 1])]
  }

  /** The i-th status is the status of the i-th event. */
  lemma {:induction false} EventStatusesAt(es: seq<MoveEvent>)
    ensures forall i :: 0 <= i < |es| ==> EventStatuses(es)[i] == StatusOf(es[i])
  {
    if es != [] {
      EventStatusesAt(es[..|es| - 1]);
    }
  }

  /** The event kind a status stands for: the inverse of StatusOf on the three codes. */
  function KindOfStatus(status: int): Option<int> {
    if status == STATUS_OK then Some(0)
    else if status == STATUS_PENDING then Some(1)
    else if status == STATUS_KO then Some(2)
    else None
  }

  function KindOf(e: MoveEvent): int {
    match e
    case SerieMoved(_, _, _) => 0
    case MoveInProgress(_) => 1
    case MoveFailed(_) => 2
  }

  /** A status read back names the kind of event that produced it. */
  lemma StatusIdentifiesEvent(e: MoveEvent)
    ensures KindOfStatus(StatusOf(e)) == Some(KindOf(e))
  {
  }

  lemma SignalledPathsAppend(a: seq<Signal>, b: seq<Signal>)
    ensures SignalledPaths(a + b) == SignalledPaths(a) + SignalledPaths(b)
    decreases |b|
  {
    if b == [] {
      assert a + b == a;
    } else {
      assert (a + b)[..|a + b| - 1] == a + b[..|b| - 1];
      SignalledPathsAppend(a, b[..|b| - 1]);
    }
  }

  lemma SignalledStatusesAppend(a: seq<Signal>, b: seq<Signal>)
    ensures SignalledStatuses(a + b) == SignalledStatuses(a) + SignalledStatuses(b)
    decreases |b|
  {
    if b == [] {
      assert a + b == a;
    } else {
      assert (a + b)[..|a + b| - 1] == a + b[..|b| - 1];
      SignalledStatusesAppend(a, b[..|b| - 1]);
    }
  }

  /** The paths and statuses read off the signals of one event. */
  lemma TranslateReadBack(requestId: int, e: MoveEvent)
    ensures SignalledPaths(Translate(requestId, e)) == if e.SerieMoved? then [e.path] else []
    ensures SignalledStatuses(Translate(requestId, e)) == [StatusOf(e)]
  {
    var t := Translate(requestId, e);
    if e.SerieMoved? {
      assert t[..1] == [t[0]];
      assert t[..1][..0] == [];
      assert SignalledPaths(t[..1]) == [] && SignalledStatuses(t[..1]) == [StatusOf(e)];
    } else {
      assert t[..0] == [];
    }
  }

  /** Every signal of a run of events carries the mover's request id. */
  lemma {:induction false} TranslateAllRequestId(requestId: int, es: seq<MoveEvent>)
    ensures forall s :: s in TranslateAll(requestId, es) ==> s.requestId == requestId
  {
    if es != [] {
      TranslateAllRequestId(requestId, es[..|es| - 1]);
    }
  }

  /** The pathToData paths of a run of events are exactly the moved series' paths, in order. */
  lemma {:induction false} TranslateAllPaths(requestId: int, es: seq<MoveEvent>)
    ensures SignalledPaths(TranslateAll(requestId, es)) == MovedPaths(es)
  {
    if es != [] {
      TranslateAllPaths(requestId, es[..|es| - 1]);
      SignalledPathsAppend(TranslateAll(requestId, es[..|es| - 1]), Translate(requestId, es[|es| - 1]));
      TranslateReadBack(requestId, es[|es| - 1]);
    }
  }

  /** A run of events yields one moveProgress per event, with that event's status, in order. */
  lemma {:induction false} TranslateAllStatuses(requestId: int, es: seq<MoveEvent>)
    ensures SignalledStatuses(TranslateAll(requestId, es)) == EventStatuses(es)
  {
    if es != [] {
      var init := es[..|es| - 1];
      TranslateAllStatuses(requestId, init);
      SignalledStatusesAppend(TranslateAll(requestId, init), Translate(requestId, es[|es| - 1]));
      TranslateReadBack(requestId, es[|es| - 1]);
    }
  }

  /** A mover started by the plugin, with its request id. */
  datatype StartedMove = StartedMove(requestId: int, mover: MoveJob)

  /** The data path the plugin reports as cached for a request (none for an unknown request). */
  function CachedPath(requestIdMap: map<int, MoveJob>, requestId: int): Option<string> {
    if requestId in requestIdMap && requestIdMap[requestId].outputDir != "" then Some(requestIdMap[requestId].outputDir)
    else None
  }

  /** A server entry that matches the remote server given by aet, hostname and port. */
  predicate Matches(s: Server, aet: string, hostname: string, port: int) {
    s.port == NumberToString(port) && s.aetitle == aet && s.name == aet && s.address == hostname
  }

  predicate Registered(servers: seq<Server>, aet: string, hostname: string, port: int) {
    exists i :: 0 <= i < |servers| && Matches(servers[i], aet, hostname, port)
  }

  /** The server entry updateRemoteParameters builds: aet as name and AE title. */
  function RemoteEntry(aet: string, hostname: string, port: int): (s: Server)
    ensures Matches(s, aet, hostname, port)
  {
    Server(aet, aet, NumberToString(port), hostname)
  }

  /** The server list after registering the remote server. */
  function Register(servers: seq<Server>, aet: string, hostname: string, port: int): seq<Server> {
    if Registered(servers, aet, hostname, port) then servers else servers + [RemoteEntry(aet, hostname, port)]
  }

  /**
   * Registering makes the server registered, keeps every entry already
   * listed, adds at most one, and a second registration changes nothing.
   */
  lemma RegisterSpec(servers: seq<Server>, aet: string, hostname: string, port: int)
    ensures Registered(Register(servers, aet, hostname, port), aet, hostname, port)
    ensures servers <= Register(servers, aet, hostname, port)
    ensures |Register(servers, aet, hostname, port)| <= |servers| + 1
    ensures Register(Register(servers, aet, hostname, port), aet, hostname, port) == Register(servers, aet, hostname, port)
  {
    var r := Register(servers, aet, hostname, port);
    if !Registered(servers, aet, hostname, port) {
      assert Matches(r[|servers|], aet, hostname, port);
    }
  }

  /** The search loop of updateRemoteParameters: does a listed server match? */
  method IsRegistered(servers: seq<Server>, aet: string, hostname: string, port: int) returns (registered: bool)
    ensures registered <==> Registered(servers, aet, hostname, port)
  {
    registered := false;
    var portText := NumberToString(port);
    var i := 0;
    while i < |servers|
      invariant 0 <= i <= |servers|
      invariant forall j :: 0 <= j < i ==> !Matches(servers[j], aet, hostname, port)
    {
      var s := servers[i];
      if s.port == portText && s.aetitle == aet && s.name == aet && s.address == hostname {
        registered := true;
        return;
      }
      i := i + 1;
    }
  }

  class Aphp {
    /** The running moves by request id. */
    var requestIdMap: map<int, MoveJob>
    /** The movers started, in order. */
    var started: seq<StartedMove>
    /** The request ids whose mover was asked to stop, in order. */
    var stopped: seq<int>
    /** The signals emitted, in order. */
    var signals: seq<Signal>
    var temporaryDirValid: bool
    var temporaryDirPath: string
    /** The preferences' server list. */
    var servers: seq<Server>
    var remoteServer: Server
    var remoteNumber: int
    const manager: Manager

    /** A plugin with no request; the remote server index is whatever it starts as. */
    constructor (manager: Manager, temporaryDirValid: bool, temporaryDirPath: string, servers: seq<Server>, remoteNumber: int)
      ensures this.manager == manager
      ensures requestIdMap == map[] && started == [] && stopped == [] && signals == []
      ensures this.temporaryDirValid == temporaryDirValid && this.temporaryDirPath == temporaryDirPath
      ensures this.servers == servers && this.remoteNumber == remoteNumber && remoteServer == EMPTY_SERVER
    {
      this.manager := manager;
      requestIdMap := map[];
      started := [];
      stopped := [];
      signals := [];
      this.temporaryDirValid := temporaryDirValid;
      this.temporaryDirPath := temporaryDirPath;
      this.servers := servers;
      this.remoteServer := EMPTY_SERVER;
      this.remoteNumber := remoteNumber;
    }

    /**
     * Starts a move of `key` at `queryLevel` under `requestId`. The remote
     * server is first made the manager's current server. Without a valid
     * temporary directory nothing else happens and the answer is false;
     * otherwise a mover writing to the temporary directory is registered
     * (replacing any mover under that id) and started at once.
     */
    method MoveRequest(requestId: int, queryLevel: string, key: string) returns (ok: bool)
      modifies this`requestIdMap, this`started, manager`currentPacs
      ensures 0 <= remoteNumber < |servers| ==> manager.currentPacs == servers[remoteNumber]
      ensures !(0 <= remoteNumber < |servers|) ==> manager.currentPacs == old(manager.currentPacs)
      ensures ok == temporaryDirValid
      ensures !ok ==> requestIdMap == old(requestIdMap) && started == old(started)
      ensures ok ==>
        var job := MoveJob(temporaryDirPath, "", [key], queryLevel);
        && requestIdMap == old(requestIdMap)[requestId := job]
        && started == old(started) + [StartedMove(requestId, job)]
    {
      manager.SetCurrentPacs(remoteNumber, servers);
      ok := false;
      if temporaryDirValid {
        var job := MoveJob(temporaryDirPath, "", [key], queryLevel);
        requestIdMap := requestIdMap[requestId := job];
        started := started + [StartedMove(requestId, job)];
        ok := true;
      }
    }

    /** An event of the mover registered under `requestId`: its signals are emitted. */
    method OnMoverEvent(requestId: int, e: MoveEvent)
      modifies this`signals
      ensures signals == old(signals) + Translate(requestId, e)
    {
      match e
      case SerieMoved(path, _, _) =>
        signals := signals + [MoveProgress(requestId, STATUS_OK)];
        signals := signals + [PathToData(requestId, path)];
      case MoveInProgress(_) =>
        signals := signals + [MoveProgress(requestId, STATUS_PENDING)];
      case MoveFailed(_) =>
        signals := signals + [MoveProgress(requestId, STATUS_KO)];
    }

    /**
     * Whether the data of a request is already on disk: true, with a
     * pathToData signal, when the request is known and its mover has an
     * output directory; false and no signal otherwise, an unknown request
     * included.
     */
    method IsCachedDataPath(requestId: int) returns (cached: bool)
      modifies this`signals
      ensures cached <==> CachedPath(requestIdMap, requestId).Some?
      ensures cached ==> signals == old(signals) + [PathToData(requestId, CachedPath(requestIdMap, requestId).value)]
      ensures !cached ==> signals == old(signals)
    {
      cached := false;
      if requestId in requestIdMap {
        var path := requestIdMap[requestId].outputDir;
        if path != "" {
          cached := true;
          signals := signals + [PathToData(requestId, path)];
        }
      }
    }

    /** Stops and forgets a request; an unknown request is ignored. */
    method StopMove(requestId: int)
      modifies this`requestIdMap, this`stopped
      ensures requestId !in old(requestIdMap) ==> requestIdMap == old(requestIdMap) && stopped == old(stopped)
      ensures requestId in old(requestIdMap) ==>
        requestIdMap == old(requestIdMap) - {requestId} && stopped == old(stopped) + [requestId]
      ensures requestId !in requestIdMap
      ensures forall k :: k in old(requestIdMap) && k != requestId ==> k in requestIdMap && requestIdMap[k] == old(requestIdMap)[k]
    {
      if requestId in requestIdMap {
        stopped := stopped + [requestId];
        requestIdMap := requestIdMap - {requestId};
      }
    }

    /**
     * Adds the remote server to the server list unless an entry with the same
     * port, AE title, name and address is listed; a newly added server
     * becomes the remote server and its index the remote server number.
     */
    method UpdateRemoteParameters(aet: string, hostname: string, port: int)
      modifies this`servers, this`remoteServer, this`remoteNumber
      ensures servers == Register(old(servers), aet, hostname, port)
      ensures Registered(old(servers), aet, hostname, port) ==>
        remoteServer == old(remoteServer) && remoteNumber == old(remoteNumber)
      ensures !Registered(old(servers), aet, hostname, port) ==>
        && remoteServer == RemoteEntry(aet, hostname, port)
        && remoteNumber == |old(servers)|
        && 0 <= remoteNumber < |servers| && servers[remoteNumber] == remoteServer
    {
      var registered := IsRegistered(servers, aet, hostname, port);
      if !registered {
        remoteServer := Server(aet, aet, NumberToString(port), hostname);
        remoteNumber := |servers|;
        servers := servers + [remoteServer];
      }
    }
  }

  // ----- isCachedDataPath as written -----

  /** What isCachedDataPath as written does: the looked-up mover is read before it is checked. */
  datatype CacheOutcome = Cached(path: string) | NotCached | NullDereference

  /** isCachedDataPath as written; an unknown id yields a null mover that is dereferenced. */
  function IsCachedDataPathAsWritten(requestIdMap: map<int, MoveJob>, requestId: int): CacheOutcome {
    if requestId !in requestIdMap then NullDereference
    else if requestIdMap[requestId].outputDir != "" then Cached(requestIdMap[requestId].outputDir)
    else NotCached
  }

  /**
   * Any id not registered (one never requested, or one already stopped)
   * reaches the dereference, where the corrected check answers "not cached";
   * on a registered id both agree.
   */
  lemma CachedDataPathUnknownId(requestIdMap: map<int, MoveJob>, requestId: int)
    ensures requestId !in requestIdMap ==>
      IsCachedDataPathAsWritten(requestIdMap, requestId) == NullDereference && CachedPath(requestIdMap, requestId) == None
    ensures requestId in requestIdMap ==>
      && IsCachedDataPathAsWritten(requestIdMap, requestId) != NullDereference
      && (IsCachedDataPathAsWritten(requestIdMap, requestId).Cached? <==> CachedPath(requestIdMap, requestId).Some?)
  {
  }
}
