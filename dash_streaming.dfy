/**
 The plain logic of the DASH streaming driver (scratch/dash-streaming.cc):
 the case-insensitive transport-protocol gate, the per-run logging folder
 and the order in which `main` validates, creates the folder and derives
 the packet-capture prefix. Everything `main` hands to the simulator is
 recorded as data; what the simulator does with it is not modelled.
 */
module DashStreaming {
  import opened Text

  type uint32 = x: int | 0 <= x < 0x1_0000_0000

  // ---------------------------------------------------------------------
  // Protocol gate: isValidProtocol
  // ---------------------------------------------------------------------

  /** std::toupper in the "C" locale: only 'a'..'z' change. */
  function ToUpper(c: char): char
  {
    if 'a' <= c <= 'z' then (c as int - 32) as char else c
  }

  /** The upper-cased copy the gate compares. */
  function Upper(s: string): string
  {
    seq(|s|, i requires 0 <= i < |s| => ToUpper(s[i]))
  }

  /** The gate's meaning: the upper-cased name is one of the two supported names. */
  predicate ValidProtocol(name: string)
  {
    Upper(name) == "QUIC" || Upper(name) == "TCP"
  }

  /**
   The gate as the driver runs it: the name arrives by value, the copy is
   upper-cased in place character by character, then compared.
   */
  method IsValidProtocol(name: string) returns (valid: bool)
    ensures valid <==> ValidProtocol(name)
  {
    var copy := new char[|name|](i requires 0 <= i < |name| => name[i]);
    for i := 0 to copy.Length
      invariant forall k :: 0 <= k < i ==> copy[k] == ToUpper(name[k])
      invariant forall k :: i <= k < copy.Length ==> copy[k] == name[k]
    {
      copy[i] := ToUpper(copy[i]);
    }
    assert copy[..] == Upper(name);
    valid := copy[..] == "QUIC" || copy[..] == "TCP";
  }

  /** Matches `word` letter by letter, each letter in either case. */
  predicate SpelledInAnyCase(s: string, word: string)
    requires forall k :: 0 <= k < |word| ==> 'A' <= word[k] <= 'Z'
  {
    |s| == |word| && forall k :: 0 <= k < |s| ==> s[k] == word[k] || s[k] as int == word[k] as int + 32
  }

  /** An independent description of the accepted names: QUIC or TCP spelt in any mix of cases. */
  lemma ValidProtocolSpelling(name: string)
    ensures ValidProtocol(name) <==> SpelledInAnyCase(name, "QUIC") || SpelledInAnyCase(name, "TCP")
  {
  }

  lemma UpperIdempotent(s: string)
    ensures Upper(Upper(s)) == Upper(s)
  {
  }

  /** Letter case never matters to the gate. */
  lemma ValidProtocolIgnoresCase(name: string)
    ensures ValidProtocol(name) <==> ValidProtocol(Upper(name))
  {
    UpperIdempotent(name);
  }

  /** Only names of three or four characters can pass. */
  lemma ValidProtocolLength(name: string)
    ensures ValidProtocol(name) ==> |name| == 3 || |name| == 4
  {
  }

  lemma ValidProtocolExamples()
    ensures ValidProtocol("QUIC") && ValidProtocol("quic") && ValidProtocol("Quic")
    ensures ValidProtocol("TCP") && ValidProtocol("Tcp") && ValidProtocol("tCp")
    ensures !ValidProtocol("UDP") && !ValidProtocol("udp") && !ValidProtocol("") && !ValidProtocol("QUIC ")
  {
    assert Upper("UDP")[0] == 'U' && Upper("udp")[0] == 'U';
  }

  // ---------------------------------------------------------------------
  // Per-run logging folder: createLoggingFolder
  // ---------------------------------------------------------------------

  /**
   `main` reads the id as a 32-bit unsigned integer and passes it to an
   `int` parameter: values from 2^31 up arrive as negative numbers.
   */
  function Int32OfUint32(u: uint32): (i: int)
    ensures -0x8000_0000 <= i < 0x8000_0000
    ensures (u - i) % 0x1_0000_0000 == 0
  {
    if u < 0x8000_0000 then u else u - 0x1_0000_0000
  }

  lemma Int32OfUint32Injective(u: uint32, v: uint32)
    ensures Int32OfUint32(u) == Int32OfUint32(v) <==> u == v
  {
  }

  /** The leaf path returned: logDir + algo + "/" + to_string(id) + "/". */
  function LoggingFolderPath(logDir: string, algo: string, id: int): string
  {
    logDir + algo + "/" + IntToString(id) + "/"
  }

  /** The three mkdir requests, parent first. */
  function LoggingFolderRequests(logDir: string, algo: string, id: int): (reqs: seq<string>)
    ensures |reqs| == 3 && reqs[2] == LoggingFolderPath(logDir, algo, id)
  {
    [logDir, logDir + algo, LoggingFolderPath(logDir, algo, id)]
  }

  /** The path lies under logDir + algo, ends in '/', and its last component reads back as the id. */
  lemma LoggingFolderShape(logDir: string, algo: string, id: int)
    ensures var path := LoggingFolderPath(logDir, algo, id);
      && logDir + algo <= path
      && path[|path| - 1] == '/'
      && path[|logDir + algo|] == '/'
      && ParseInt(path[|logDir + algo| + 1..|path| - 1]) == Some(id)
  {
    var path := LoggingFolderPath(logDir, algo, id);
    assert path[|logDir + algo| + 1..|path| - 1] == IntToString(id);
    IntToStringRoundTrip(id);
  }

  /** For a fixed algorithm, distinct ids give distinct folders. */
  lemma LoggingFolderInjective(logDir: string, algo: string, i: int, j: int)
    ensures LoggingFolderPath(logDir, algo, i) == LoggingFolderPath(logDir, algo, j) <==> i == j
  {
    LoggingFolderShape(logDir, algo, i);
    LoggingFolderShape(logDir, algo, j);
  }

  /** Each request is a prefix of the next; the last step is always proper, the first whenever algo is non-empty. */
  lemma LoggingFolderRequestOrder(logDir: string, algo: string, id: int)
    ensures var reqs := LoggingFolderRequests(logDir, algo, id);
      && reqs[0] <= reqs[1] && reqs[1] < reqs[2]
      && (algo != [] <==> reqs[0] < reqs[1])
  {
    var reqs := LoggingFolderRequests(logDir, algo, id);
    assert reqs[1] + ("/" + IntToString(id) + "/") == reqs[2];
  }

  /** The directories present after the three requests, whichever of them already existed. */
  function DirectoriesAfter(existing: set<string>, logDir: string, algo: string, id: int): (dirs: set<string>)
    ensures LoggingFolderPath(logDir, algo, id) in dirs && existing <= dirs
  {
    var reqs := LoggingFolderRequests(logDir, algo, id);
    existing + {reqs[0], reqs[1], reqs[2]}
  }

  /** Creating the same folder again changes nothing: a re-run with the same id is harmless. */
  lemma DirectoriesAfterIdempotent(existing: set<string>, logDir: string, algo: string, id: int)
    ensures var once := DirectoriesAfter(existing, logDir, algo, id);
      DirectoriesAfter(once, logDir, algo, id) == once
  {
  }

  /**
   The directory tree as far as the driver touches it. `mkdir` results are
   ignored by the driver, so a request leaves the path present whether or
   not it was there before; every request is also logged in order.
   */
  class FileSystem {
    var directories: set<string>
    ghost var requests: seq<string>

    constructor (existing: set<string>)
      ensures directories == existing && requests == []
    {
      directories := existing;
      requests := [];
    }

    method Mkdir(path: string)
      modifies this
      ensures directories == old(directories) + {path}
      ensures requests == old(requests) + [path]
    {
      directories := directories + {path};
      requests := requests + [path];
    }
  }

  method CreateLoggingFolder(fs: FileSystem, logDir: string, algo: string, id: int) returns (dir: string)
    modifies fs
    ensures dir == LoggingFolderPath(logDir, algo, id)
    ensures fs.requests == old(fs.requests) + LoggingFolderRequests(logDir, algo, id)
    ensures fs.directories == DirectoriesAfter(old(fs.directories), logDir, algo, id)
  {
    fs.Mkdir(logDir);
    var algoDir := logDir + algo;
    fs.Mkdir(algoDir);
    dir := algoDir + "/" + IntToString(id) + "/";
    fs.Mkdir(dir);
  }

  // ---------------------------------------------------------------------
  // main: validate, create the folder, hand parameters to the simulator
  // ---------------------------------------------------------------------

  /** The command-line values main reads (all supplied; unset flags are not modelled). */
  datatype Arguments = Arguments(
    simulationId: uint32,
    adaptationAlgo: string,
    transportProtocol: string,
    dataRate: string,
    pacingEnabled: bool,
    errorRate: real)

  datatype AttributeValue = UintegerValue(n: nat) | BooleanValue(b: bool)

  /**
   What main passes to the simulator, in its own terms. The loss model is
   attached to the client node's device with the given rate, whatever the
   rate, so receiveErrorRate is always present.
   */
  datatype SimulationPlan = SimulationPlan(
    loggingFolder: string,
    pcapPrefix: string,
    defaults: map<string, AttributeValue>,
    linkDataRate: string,
    linkDelay: string,
    receiveErrorRate: real,
    clientNode: nat,
    serverNode: nat,
    serverPort: nat,
    serverStartSeconds: nat,
    clientStartSeconds: nat,
    transportProtocol: string,
    segmentDuration: nat,
    segmentSizeFilePath: string,
    numberOfClients: nat,
    simulationId: uint32,
    adaptationAlgo: string)

  const SegmentSize: nat := 1446
  const BufferSize: nat := 524288

  /** The process-wide defaults set before any node exists; pacing is only switched on, never off. */
  function TransportDefaults(pacingEnabled: bool): map<string, AttributeValue>
  {
    var common := map[
      "ns3::TcpSocket::SegmentSize" := UintegerValue(SegmentSize),
      "ns3::TcpSocket::SndBufSize" := UintegerValue(BufferSize),
      "ns3::TcpSocket::RcvBufSize" := UintegerValue(BufferSize),
      "ns3::QuicSocketBase::MaxPacketSize" := UintegerValue(SegmentSize),
      "ns3::QuicSocketBase::SocketRcvBufSize" := UintegerValue(BufferSize),
      "ns3::QuicSocketBase::SocketSndBufSize" := UintegerValue(BufferSize),
      "ns3::QuicStreamBase::StreamSndBufSize" := UintegerValue(BufferSize),
      "ns3::QuicStreamBase::StreamRcvBufSize" := UintegerValue(BufferSize)];
    if pacingEnabled then common["ns3::TcpSocketState::EnablePacing" := BooleanValue(true)] else common
  }

  /** TCP and QUIC get the same packet size and the same buffers; the pacing key is present exactly when pacing was asked for. */
  lemma TransportDefaultsSymmetric(pacingEnabled: bool)
    ensures var d := TransportDefaults(pacingEnabled);
      && d["ns3::TcpSocket::SegmentSize"] == d["ns3::QuicSocketBase::MaxPacketSize"] == UintegerValue(1446)
      && d["ns3::TcpSocket::SndBufSize"] == d["ns3::QuicSocketBase::SocketSndBufSize"] == d["ns3::QuicStreamBase::StreamSndBufSize"]
      && d["ns3::TcpSocket::RcvBufSize"] == d["ns3::QuicSocketBase::SocketRcvBufSize"] == d["ns3::QuicStreamBase::StreamRcvBufSize"]
      && d["ns3::TcpSocket::SndBufSize"] == d["ns3::TcpSocket::RcvBufSize"] == UintegerValue(524288)
      && ("ns3::TcpSocketState::EnablePacing" in d <==> pacingEnabled)
  {
  }

  function PlanFor(args: Arguments, loggingFolder: string): (plan: SimulationPlan)
    ensures loggingFolder <= plan.pcapPrefix
    ensures plan.serverStartSeconds < plan.clientStartSeconds
    ensures plan.clientNode != plan.serverNode
    ensures plan.receiveErrorRate == args.errorRate
  {
    SimulationPlan(
      loggingFolder := loggingFolder,
      pcapPrefix := loggingFolder + "dash-tracing",
      defaults := TransportDefaults(args.pacingEnabled),
      linkDataRate := args.dataRate,
      linkDelay := "2ms",
      receiveErrorRate := args.errorRate,
      clientNode := 0,
      serverNode := 1,
      serverPort := 80,
      serverStartSeconds := 1,
      clientStartSeconds := 2,
      transportProtocol := args.transportProtocol,
      segmentDuration := 2000000,
      segmentSizeFilePath := "contrib/dash/segmentSizes.txt",
      numberOfClients := 1,
      simulationId := args.simulationId,
      adaptationAlgo := args.adaptationAlgo)
  }

  datatype Outcome = Aborted(message: string) | Planned(plan: SimulationPlan)

  function UnsupportedMessage(name: string): string
  {
    "Protocol '" + name + "' is not supported."
  }

  /**
   The set-up part of main. NS_ASSERT_MSG is only compiled into builds with
   assertions enabled; there an unsupported protocol aborts before any
   directory is requested. Otherwise the folder is created for the id as
   the int parameter receives it, and the capture prefix is built from it.
   */
  method RunDashStreaming(fs: FileSystem, logDir: string, args: Arguments, assertionsEnabled: bool)
    returns (outcome: Outcome)
    modifies fs
    ensures assertionsEnabled && !ValidProtocol(args.transportProtocol) ==>
      && outcome == Aborted(UnsupportedMessage(args.transportProtocol))
      && fs.requests == old(fs.requests) && fs.directories == old(fs.directories)
    ensures !assertionsEnabled || ValidProtocol(args.transportProtocol) ==>
      var folder := LoggingFolderPath(logDir, args.adaptationAlgo, Int32OfUint32(args.simulationId));
      && outcome == Planned(PlanFor(args, folder))
      && fs.requests == old(fs.requests) + LoggingFolderRequests(logDir, args.adaptationAlgo, Int32OfUint32(args.simulationId))
      && fs.directories == DirectoriesAfter(old(fs.directories), logDir, args.adaptationAlgo, Int32OfUint32(args.simulationId))
  {
    if assertionsEnabled {
      var valid := IsValidProtocol(args.transportProtocol);
      if !valid {
        return Aborted(UnsupportedMessage(args.transportProtocol));
      }
    }
    var loggingFolder := CreateLoggingFolder(fs, logDir, args.adaptationAlgo, Int32OfUint32(args.simulationId));
    outcome := Planned(PlanFor(args, loggingFolder));
  }
}
