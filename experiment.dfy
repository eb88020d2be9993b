/**
 How the sweep script and the driver fit together: every run the script
 launches names a protocol the driver's gate accepts, and the directory
 the script copies client logs from is the folder the driver created for
 that run exactly when the driver's log root is "dash-log-files/" and the
 id is below 2^31.
 */
module Experiment {
  import opened Text
  import DashStreaming
  import RunSimulations

  /** The log root the script reads from; the driver's own root is a parameter. */
  const ScriptLogRoot: string := "dash-log-files/"

  /** Each generated run, read back from its command line, passes the driver's protocol gate. */
  lemma SweepRunsPassGate(i: nat)
    requires i < RunSimulations.ConfigCount
    ensures var c := RunSimulations.ConfigAt(i);
      var decoded := RunSimulations.DecodeWafCommand(RunSimulations.WafCommand(c.protocol, c.bitrate, c.algo, c.pacing, c.id));
      && decoded.Some?
      && decoded.value.transportProtocol == c.protocol
      && DashStreaming.ValidProtocol(decoded.value.transportProtocol)
  {
    var c := RunSimulations.ConfigAt(i);
    RunSimulations.ConfigAtClean(i);
    DashStreaming.ValidProtocolExamples();
    RunSimulations.WafCommandRoundTrip(c.protocol, c.bitrate, c.algo, c.pacing, c.id);
  }

  /**
   Below 2^31 the script's log source is the driver's folder for the run
   exactly when the driver's log root is the script's "dash-log-files/".
   */
  lemma LogSourceIsDriverFolder(logDir: string, algo: string, simId: DashStreaming.uint32)
    requires simId < 0x8000_0000
    ensures RunSimulations.LogFilesDir(algo, simId)
         == DashStreaming.LoggingFolderPath(logDir, algo, DashStreaming.Int32OfUint32(simId))
        <==> logDir == ScriptLogRoot
  {
    var tail := algo + "/" + NatToString(simId) + "/";
    var s := RunSimulations.LogFilesDir(algo, simId);
    var t := DashStreaming.LoggingFolderPath(logDir, algo, DashStreaming.Int32OfUint32(simId));
    assert s == ScriptLogRoot + tail;
    assert t == logDir + tail;
    if s == t {
      assert |logDir| == |ScriptLogRoot|;
      assert logDir == t[..|logDir|] == s[..|ScriptLogRoot|] == ScriptLogRoot;
    }
  }

  /**
   From 2^31 on the driver's int parameter turns the id negative, so even
   under the script's log root its folder is not the one the script copies from.
   */
  lemma LogSourceDivergesFromTwoToThe31(algo: string, simId: DashStreaming.uint32)
    requires simId >= 0x8000_0000
    ensures RunSimulations.LogFilesDir(algo, simId)
         != DashStreaming.LoggingFolderPath(ScriptLogRoot, algo, DashStreaming.Int32OfUint32(simId))
  {
    var prefix := ScriptLogRoot + algo + "/";
    var s := RunSimulations.LogFilesDir(algo, simId);
    var t := DashStreaming.LoggingFolderPath(ScriptLogRoot, algo, DashStreaming.Int32OfUint32(simId));
    assert s == prefix + NatToString(simId) + "/";
    assert t == prefix + IntToString(DashStreaming.Int32OfUint32(simId)) + "/";
    assert s[|prefix|] == NatToString(simId)[0];
    assert t[|prefix|] == '-';
    assert IsDigit(NatToString(simId)[0]);
  }

  /**
   Every generated run copies its client logs from the folder the driver
   made for it, exactly when the driver's log root is "dash-log-files/".
   */
  lemma SweepLogSourcesMatch(baseDir: string, logDir: string, i: nat)
    requires i < RunSimulations.ConfigCount
    ensures var c := RunSimulations.ConfigAt(i);
      RunSimulations.PlanRun(baseDir, c).logFilesDir
        == DashStreaming.LoggingFolderPath(logDir, c.algo, DashStreaming.Int32OfUint32(c.id))
      <==> logDir == ScriptLogRoot
  {
    var c := RunSimulations.ConfigAt(i);
    LogSourceIsDriverFolder(logDir, c.algo, c.id);
  }
}
